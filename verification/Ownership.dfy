/** Session accounting and foreground ownership over whole runs. */
module Ownership {
  import opened Basics
  import opened Tables
  import opened Protocol
  import opened Invariance
  import opened History
  import Conversations

  // ---- Session accounting ------------------------------------------------------------

  /** The chunk, if any, that step `op` commits to `session`. */
  ghost function Committed(db: Db, op: Op, session: string): seq<seq<Conversations.Message>> {
    if !Enabled(db, op) then []
    else match op
      case Append(target, _, chunk) => if target == session then [chunk] else []
      case CompleteChild(id, _, _, _, chunk, _, _) =>
        if db.delegations[id].spec.child == session then [chunk] else []
      case CompleteTurn(turn, _, chunk, _) =>
        if db.turns[turn].session == session then [chunk] else []
      case _ => []
  }

  /** Every chunk committed to `session` in the steps from `i` up to `j`. */
  ghost function Chunks(states: seq<Db>, ops: seq<Op>, i: nat, j: nat, session: string): seq<seq<Conversations.Message>>
    requires i <= j <= |ops| < |states|
    decreases j
  {
    if i == j then []
    else Chunks(states, ops, i, j - 1, session) + Committed(states[j - 1], ops[j - 1], session)
  }

  /** A session that does not exist yet stands at generation 1 with nothing to say. */
  function GenerationOf(db: Db, session: string): nat {
    if session in db.sessions then db.sessions[session].generation else 1
  }

  function MessagesOf(db: Db, session: string): seq<Conversations.Message> {
    if session in db.sessions then db.sessions[session].messages else []
  }

  /** One step moves a session by exactly the chunk it commits there. */
  lemma StepAccounting(db: Db, op: Op, next: Db, session: string)
    requires Valid(db) && Next(db, op, next)
    ensures GenerationOf(next, session) == GenerationOf(db, session) + |Committed(db, op, session)|
    ensures MessagesOf(next, session) == MessagesOf(db, session) + Flatten(Committed(db, op, session))
    ensures session in db.sessions ==> session in next.sessions
  {
    var chunks := Committed(db, op, session);
    if chunks != [] {
      FlattenSnoc([], chunks[0]);
      assert [] + [chunks[0]] == chunks;
      assert [] + chunks[0] == chunks[0];
    } else {
      assert MessagesOf(db, session) + [] == MessagesOf(db, session);
      if Enabled(db, op) && LeavesSessions(op) { SessionsLeftAlone(db, op, next); }
    }
  }

  predicate LeavesSessions(op: Op) {
    !op.CreateSession? && !op.CreateWithChild? && !op.Append? && !op.CompleteChild? && !op.CompleteTurn?
  }

  lemma SessionsLeftAlone(db: Db, op: Op, next: Db)
    requires Enabled(db, op) && Takes(db, op, next) && LeavesSessions(op)
    ensures next.sessions == db.sessions
  {
    if op.Cancel? { assert Cancelling(db, op.id, op.reason, op.at).sessions == db.sessions; }
  }

  lemma Accumulate<T>(base: seq<T>, parts: seq<seq<T>>, more: seq<seq<T>>)
    ensures base + Flatten(parts + more) == (base + Flatten(parts)) + Flatten(more)
  {
    FlattenAppend(parts, more);
  }

  /** From `i` to `j` the generation grew by the number of chunks committed to the session, and
      its conversation by their concatenation. */
  ghost predicate Accounts(states: seq<Db>, ops: seq<Op>, i: nat, j: nat, session: string)
    requires i <= j <= |ops| < |states|
  {
    var chunks := Chunks(states, ops, i, j, session);
    && GenerationOf(states[j], session) == GenerationOf(states[i], session) + |chunks|
    && MessagesOf(states[j], session) == MessagesOf(states[i], session) + Flatten(chunks)
  }

  lemma AccountsOneMore(states: seq<Db>, ops: seq<Op>, i: nat, j: nat, session: string)
    requires i < j <= |ops| < |states| && Accounts(states, ops, i, j - 1, session)
    requires Valid(states[j - 1]) && Next(states[j - 1], ops[j - 1], states[j])
    ensures Accounts(states, ops, i, j, session)
  {
    StepAccounting(states[j - 1], ops[j - 1], states[j], session);
    Accumulate(MessagesOf(states[i], session), Chunks(states, ops, i, j - 1, session),
               Committed(states[j - 1], ops[j - 1], session));
  }

  lemma AccountsNothing(states: seq<Db>, ops: seq<Op>, i: nat, session: string)
    requires i <= |ops| < |states|
    ensures Accounts(states, ops, i, i, session)
  {
    assert MessagesOf(states[i], session) + [] == MessagesOf(states[i], session);
  }

  lemma StepHappens(states: seq<Db>, ops: seq<Op>, i: nat)
    requires Behavior(states, ops) && i < |ops|
    ensures Valid(states[i]) && Next(states[i], ops[i], states[i + 1])
  {
    AlwaysValid(states, ops, i);
    assert StepAt(states, ops, i);
  }

  lemma AccountsAfterStep(states: seq<Db>, ops: seq<Op>, i: nat, j: nat, session: string)
    requires Behavior(states, ops) && i < j < |states| && Accounts(states, ops, i, j - 1, session)
    ensures Accounts(states, ops, i, j, session)
  {
    StepHappens(states, ops, j - 1);
    AccountsOneMore(states, ops, i, j, session);
  }

  /** Over any run, from any point: the generation grows by the number of committed turns, and
      the stored conversation by their concatenation. */
  lemma {:induction false} SessionAccounting(states: seq<Db>, ops: seq<Op>, i: nat, j: nat, session: string)
    requires Behavior(states, ops) && i <= j < |states|
    ensures Accounts(states, ops, i, j, session)
    decreases j
  {
    if i < j {
      SessionAccounting(states, ops, i, j - 1, session);
      AccountsAfterStep(states, ops, i, j, session);
    } else {
      AccountsNothing(states, ops, i, session);
    }
  }

  /** From an empty database: generation one plus the turns, conversation exactly the turns,
      well-formed, and finished by an assistant. */
  lemma HistoryOfASession(states: seq<Db>, ops: seq<Op>, j: nat, session: string)
    requires Behavior(states, ops) && states[0] == EMPTY && j < |states| && session in states[j].sessions
    ensures states[j].sessions[session].generation == 1 + |Chunks(states, ops, 0, j, session)|
    ensures states[j].sessions[session].messages == Flatten(Chunks(states, ops, 0, j, session))
    ensures Conversations.Settled(states[j].sessions[session].messages)
  {
    SessionAccounting(states, ops, 0, j, session);
    AlwaysValid(states, ops, j);
    assert SessionOk(session, states[j].sessions[session]);
    var chunks := Chunks(states, ops, 0, j, session);
    assert [] + Flatten(chunks) == Flatten(chunks);
  }

  /** The writes that present a session generation: to the session of a turn, of a child, or named. */
  predicate PresentsStale(db: Db, op: Op, session: string, generation: nat) {
    || (op.Append? && op.session == session && op.generation == generation)
    || (op.CompleteTurn? && op.turn in db.turns && db.turns[op.turn].session == session && op.generation == generation)
    || (op.CompleteChild? && op.id in db.delegations && db.delegations[op.id].spec.child == session
        && op.childGeneration == generation)
  }

  /** Once a session has moved past a generation, no write that presents it ever has an effect. */
  lemma StaleForever(states: seq<Db>, ops: seq<Op>, i: nat, j: nat, session: string, generation: nat)
    requires Behavior(states, ops) && i <= j < |ops|
    requires session in states[i].sessions && generation < GenerationOf(states[i], session)
    requires PresentsStale(states[j], ops[j], session, generation)
    ensures !Accepted(states, ops, j) && states[j + 1] == states[j]
  {
    SessionAccounting(states, ops, i, j, session);
    assert StepAt(states, ops, j);
  }

  // ---- Foreground ownership ----------------------------------------------------------

  /** A closed attempt never changes, and an open one keeps its identity. */
  predicate TurnEvolves(a: Turn, b: Turn) {
    && b.session == a.session && b.generation == a.generation
    && b.prompt == a.prompt && b.providerPrompt == a.providerPrompt && b.started == a.started
    && (!a.status.IsActive? ==> b == a)
  }

  lemma StepTurnEvolves(db: Db, op: Op, next: Db, turn: string)
    requires Valid(db) && Next(db, op, next) && turn in db.turns
    ensures turn in next.turns && TurnEvolves(db.turns[turn], next.turns[turn])
  {
    if Enabled(db, op) && op.Cancel? {
      assert next.turns == db.turns;
    }
  }

  lemma {:induction false} TurnEvolvesOverRun(states: seq<Db>, ops: seq<Op>, i: nat, j: nat, turn: string)
    requires Behavior(states, ops) && i <= j < |states| && turn in states[i].turns
    ensures turn in states[j].turns && TurnEvolves(states[i].turns[turn], states[j].turns[turn])
    decreases j
  {
    if i < j {
      TurnEvolvesOverRun(states, ops, i, j - 1, turn);
      AlwaysValid(states, ops, j - 1);
      assert StepAt(states, ops, j - 1);
      StepTurnEvolves(states[j - 1], ops[j - 1], states[j], turn);
    }
  }

  ghost predicate ClosesAt(db: Db, next: Db, turn: string) {
    && turn in db.turns && db.turns[turn].status.IsActive?
    && turn in next.turns && !next.turns[turn].status.IsActive?
  }

  /** An attempt completes only together with the append that takes its session from the
      attempt's generation to the next one; any other ending leaves every session alone. */
  lemma ClosingAnAttempt(db: Db, op: Op, next: Db, turn: string)
    requires Valid(db) && Next(db, op, next) && ClosesAt(db, next, turn)
    ensures var row := db.turns[turn];
            if next.turns[turn].status.IsDone? then
              && op.CompleteTurn? && op.turn == turn
              && GenerationOf(db, row.session) == row.generation
              && GenerationOf(next, row.session) == row.generation + 1
              && MessagesOf(next, row.session) == MessagesOf(db, row.session) + op.chunk
            else next.sessions == db.sessions
  {
  }

  /** An overtaken attempt stays overtaken. */
  lemma OvertakenForever(states: seq<Db>, ops: seq<Op>, i: nat, j: nat, turn: string)
    requires Behavior(states, ops) && i <= j < |states| && turn in states[i].turns
    requires states[i].turns[turn].generation < GenerationOf(states[i], states[i].turns[turn].session)
    ensures turn in states[j].turns
    ensures states[j].turns[turn].generation < GenerationOf(states[j], states[j].turns[turn].session)
  {
    TurnEvolvesOverRun(states, ops, i, j, turn);
    SessionAccounting(states, ops, i, j, states[i].turns[turn].session);
  }

  /** An attempt that was running and no longer is ended at one step of the run, for good; it is
      completed exactly when that step appended its messages to the session, at its generation. */
  lemma {:induction false} HowAnAttemptEnds(states: seq<Db>, ops: seq<Op>, i: nat, j: nat, turn: string) returns (k: nat)
    requires Behavior(states, ops) && i < j < |states| && turn in states[i].turns
    requires states[i].turns[turn].status.IsActive?
    requires turn in states[j].turns && !states[j].turns[turn].status.IsActive?
    ensures i <= k < j && ClosesAt(states[k], states[k + 1], turn) && states[k + 1].turns[turn] == states[j].turns[turn]
    ensures var row := states[i].turns[turn];
            if states[j].turns[turn].status.IsDone? then
              && ops[k].CompleteTurn? && ops[k].turn == turn
              && GenerationOf(states[k], row.session) == row.generation
              && GenerationOf(states[k + 1], row.session) == row.generation + 1
              && MessagesOf(states[k + 1], row.session) == MessagesOf(states[k], row.session) + ops[k].chunk
            else states[k + 1].sessions == states[k].sessions
    decreases j
  {
    TurnEvolvesOverRun(states, ops, i, j - 1, turn);
    AlwaysValid(states, ops, j - 1);
    assert StepAt(states, ops, j - 1);
    StepTurnEvolves(states[j - 1], ops[j - 1], states[j], turn);
    if states[j - 1].turns[turn].status.IsActive? {
      k := j - 1;
      ClosingAnAttempt(states[k], ops[k], states[k + 1], turn);
    } else {
      k := HowAnAttemptEnds(states, ops, i, j - 1, turn);
    }
  }

  lemma OvertakenNeedsReconciliation(db: Db, op: Op, next: Db, turn: string)
    requires Valid(db) && Next(db, op, next) && ClosesAt(db, next, turn)
    requires db.turns[turn].generation < GenerationOf(db, db.turns[turn].session)
    ensures op.ReconcileTurns? && next.turns[turn].terminal == Some(TurnUnknown(op.reason))
  {
  }

  /** Once another writer has moved its session on, a running attempt can only end by a restart's
      reconciliation, as an unknown outcome, whatever else is tried. */
  lemma OvertakenEndsUnknown(states: seq<Db>, ops: seq<Op>, i: nat, j: nat, turn: string) returns (k: nat)
    requires Behavior(states, ops) && i < j < |states| && turn in states[i].turns
    requires states[i].turns[turn].status.IsActive?
    requires states[i].turns[turn].generation < GenerationOf(states[i], states[i].turns[turn].session)
    requires turn in states[j].turns && !states[j].turns[turn].status.IsActive?
    ensures i <= k < j && ops[k].ReconcileTurns?
    ensures states[j].turns[turn].terminal == Some(TurnUnknown(ops[k].reason))
  {
    k := HowAnAttemptEnds(states, ops, i, j, turn);
    OvertakenForever(states, ops, i, k, turn);
    AlwaysValid(states, ops, k);
    assert StepAt(states, ops, k);
    OvertakenNeedsReconciliation(states[k], ops[k], states[k + 1], turn);
  }

  ghost predicate CompletesAt(states: seq<Db>, i: int, turn: string) {
    0 <= i && i + 1 < |states| && ClosesAt(states[i], states[i + 1], turn) && states[i + 1].turns[turn].status.IsDone?
  }

  /** Two completions of one session at one generation are the same completion. */
  lemma OneCompletionAGeneration(states: seq<Db>, ops: seq<Op>, i: nat, j: nat, a: string, b: string)
    requires Behavior(states, ops)
    requires CompletesAt(states, i, a) && CompletesAt(states, j, b)
    requires states[i].turns[a].session == states[j].turns[b].session
    requires states[i].turns[a].generation == states[j].turns[b].generation
    ensures i == j && a == b
  {
    var session := states[i].turns[a].session;
    AlwaysValid(states, ops, i);
    AlwaysValid(states, ops, j);
    assert StepAt(states, ops, i) && StepAt(states, ops, j);
    ClosingAnAttempt(states[i], ops[i], states[i + 1], a);
    ClosingAnAttempt(states[j], ops[j], states[j + 1], b);
    if i < j {
      SessionAccounting(states, ops, i + 1, j, session);
    } else if j < i {
      SessionAccounting(states, ops, j + 1, i, session);
    }
  }

  /** In every reachable state a session has at most one running attempt, which never lies
      ahead of its session. */
  lemma OneRunningAttempt(states: seq<Db>, ops: seq<Op>, i: nat, a: string, b: string)
    requires Behavior(states, ops) && i < |states|
    requires a in states[i].turns && b in states[i].turns
    requires states[i].turns[a].status.IsActive? && states[i].turns[b].status.IsActive?
    requires states[i].turns[a].session == states[i].turns[b].session
    ensures a == b && states[i].turns[a].generation <= GenerationOf(states[i], states[i].turns[a].session)
  {
    AlwaysValid(states, ops, i);
    assert TurnOk(states[i].sessions, states[i].turns[a]);
    if a != b {
      TurnsDifferAt(states[i].turns, a, b);
    }
  }

  lemma TurnsDifferAt(turns: Turns, a: string, b: string)
    requires TurnsExclusive(turns) && a in turns && b in turns && a != b
    ensures TurnsDiffer(turns[a], turns[b])
  {
  }
}
