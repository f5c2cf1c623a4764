/** What is always possible: in every sound database, which operations take effect and what they
    leave, read off the columns of the rows, and what can therefore always be brought about.

    `Protocol` says when the source's guards let an operation through. The statements here say
    what that comes to for the rows that actually occur, and that no row is ever stuck. */
module Progress {
  import opened Basics
  import opened Tables
  import opened Protocol
  import Conversations
  import Deliveries
  import History

  // ---- Delegations -------------------------------------------------------------------

  /** Nobody has taken the row yet. */
  predicate Waits(row: Delegation) { row.worker.None? && row.terminal.None? }

  /** A worker has the row and it is not over. */
  predicate Runs(row: Delegation) { row.worker.Some? && row.terminal.None? }

  /** `next` differs from `db` in the row of delegation `id` alone. */
  predicate OnlyRow(db: Db, next: Db, id: string) {
    && id in db.delegations && id in next.delegations
    && next == db.(delegations := db.delegations[id := next.delegations[id]])
  }

  function Closing(outcome: Outcome): Status {
    match outcome
    case Completed(_) => IsCompleted
    case Failed(_) => IsFailed
    case Cancelled(_) => IsCancelled
    case OutcomeUnknown(_) => IsUnknown
  }

  /** The row as a terminal leaves it. */
  function Over(row: Delegation, outcome: Outcome, at: nat): Delegation {
    row.(status := Closing(outcome), terminal := Some(outcome), generation := row.generation + 1, fence := 1,
         lease := None, reason := None, requested := None, updated := at)
  }

  /** The announcement as a terminal leaves it: nobody's yet. */
  function News(row: Delegation, outcome: Outcome, at: nat): Delivery {
    var id := row.spec.delegationId;
    Delivery(id, Completion(row.spec.eventId, id, row.spec, outcome, at), false, None, None, 0, at, None)
  }

  /** `next` has delegation `id` ended and announced, and is otherwise `db` with these sessions. */
  predicate OnlyEnded(db: Db, next: Db, sessions: Sessions, id: string, outcome: Outcome, at: nat) {
    && id in db.delegations
    && var row := db.delegations[id];
       && row.spec.eventId !in db.outbox
       && next == Db(sessions, db.delegations[id := Over(row, outcome, at)], db.outbox[row.spec.eventId := News(row, outcome, at)], db.turns)
  }

  /** `next` has exactly these delegations ended and announced, and is otherwise `db`. */
  ghost predicate AllEnded(db: Db, next: Db, ended: map<string, Outcome>, at: nat) {
    && next.sessions == db.sessions && next.turns == db.turns && next.delegations.Keys == db.delegations.Keys
    && (forall id :: id in db.delegations ==>
          next.delegations[id] == if id in ended then Over(db.delegations[id], ended[id], at) else db.delegations[id])
    && (forall event :: event in db.outbox ==> event in next.outbox && next.outbox[event] == db.outbox[event])
    && (forall id :: id in ended && id in db.delegations ==>
          && db.delegations[id].spec.eventId !in db.outbox && db.delegations[id].spec.eventId in next.outbox
          && next.outbox[db.delegations[id].spec.eventId] == News(db.delegations[id], ended[id], at))
    && (forall event :: event in next.outbox && event !in db.outbox ==>
          exists id :: id in ended && id in db.delegations && db.delegations[id].spec.eventId == event)
  }

  lemma RowIsSound(db: Db, id: string)
    requires Valid(db) && id in db.delegations
    ensures var row := db.delegations[id];
            && Lawful(row) && row.spec.delegationId == id
            && (Waits(row) <==> row.status.IsPending?) && (Runs(row) <==> row.status.IsRunning?)
            && (row.terminal.None? ==> row.spec.eventId !in db.outbox)
  {
    History.LawfulAt(db, id);
    if db.delegations[id].terminal.None? { History.OutboxMirrorsLifecycle(db, id); }
  }

  /** A waiting delegation can be claimed by anybody who knows its generation, under any deadline. */
  lemma ClaimTakes(db: Db, next: Db, id: string, generation: nat, worker: string, now: nat, deadline: nat)
    requires Valid(db) && Next(db, Op.Claim(id, generation, worker, now, deadline), next)
    ensures if id in db.delegations && Waits(db.delegations[id]) && db.delegations[id].generation == generation
               && db.delegations[id].updated <= now < deadline <= MAX_I64
            then
              && OnlyRow(db, next, id) && Runs(next.delegations[id])
              && next.delegations[id]
                 == db.delegations[id].(status := IsRunning, worker := Some(worker), fence := 1, lease := Some(deadline),
                                        generation := generation + 1, updated := now)
            else next == db
  {
    if id in db.delegations { RowIsSound(db, id); }
  }

  /** The worker in charge can extend its open lease, and nothing else about the row changes. */
  lemma HeartbeatTakes(db: Db, next: Db, id: string, generation: nat, fence: nat, now: nat, deadline: nat)
    requires Valid(db) && Next(db, Op.Heartbeat(id, generation, fence, now, deadline), next)
    ensures if && id in db.delegations && Runs(db.delegations[id])
               && db.delegations[id].generation == generation < MAX_I64 && db.delegations[id].fence == fence
               && db.delegations[id].updated <= now < db.delegations[id].lease.GetOr(0) < deadline <= MAX_I64
            then
              && OnlyRow(db, next, id)
              && next.delegations[id]
                 == db.delegations[id].(lease := Some(deadline), generation := generation + 1, updated := now)
            else next == db
  {
    if id in db.delegations { RowIsSound(db, id); }
  }

  /** Anybody can end a waiting delegation, or leave one reason on a running one within its lease. */
  lemma CancelTakes(db: Db, next: Db, id: string, generation: nat, reason: string, at: nat)
    requires Valid(db) && Next(db, Op.Cancel(id, generation, reason, at), next)
    ensures var known := ValidDetail(reason) && id in db.delegations && db.delegations[id].generation == generation
                         && db.delegations[id].updated <= at;
            if known && Waits(db.delegations[id]) && at <= MAX_I64 then
              OnlyEnded(db, next, db.sessions, id, Outcome.Cancelled(reason), at)
            else if known && Runs(db.delegations[id]) && at < db.delegations[id].lease.GetOr(0) && db.delegations[id].reason.None? then
              && OnlyRow(db, next, id)
              && next.delegations[id] == db.delegations[id].(reason := Some(reason), requested := Some(at), updated := at)
            else next == db
  {
    if id in db.delegations { RowIsSound(db, id); }
  }

  /** This authority is in charge of the row at `at`: its lease is open and its counter not used up. */
  predicate InCharge(db: Db, id: string, generation: nat, fence: nat, at: nat) {
    && id in db.delegations && Runs(db.delegations[id])
    && db.delegations[id].generation == generation < MAX_I64 && db.delegations[id].fence == fence
    && db.delegations[id].updated <= at < db.delegations[id].lease.GetOr(0)
  }

  /** In charge, and the outcome is the stored reason's or, without one, anything but a cancellation. */
  predicate CanFinish(db: Db, id: string, generation: nat, fence: nat, outcome: Outcome, at: nat) {
    && InCharge(db, id, generation, fence, at)
    && if db.delegations[id].reason.Some? then outcome == Outcome.Cancelled(db.delegations[id].reason.value)
       else match outcome
         case Completed(_) => true
         case Failed(text) => !Blank(text)
         case OutcomeUnknown(text) => !Blank(text)
         case Cancelled(_) => false
  }

  lemma FinishMeans(db: Db, id: string, generation: nat, fence: nat, outcome: Outcome, at: nat)
    requires Valid(db)
    ensures Enabled(db, Op.Finish(id, generation, fence, outcome, at)) <==> CanFinish(db, id, generation, fence, outcome, at)
  {
    if id in db.delegations { RowIsSound(db, id); }
  }

  /** In charge, not asked to stop, and the child can go on with this turn. */
  ghost predicate CanComplete(db: Db, id: string, generation: nat, fence: nat, childGeneration: nat,
                              chunk: seq<Conversations.Message>, at: nat)
  {
    && InCharge(db, id, generation, fence, at) && db.delegations[id].reason.None?
    && CanGoOn(db, db.delegations[id].spec.child, childGeneration, chunk)
  }

  lemma CompleteMeans(db: Db, id: string, generation: nat, fence: nat, childGeneration: nat,
                      chunk: seq<Conversations.Message>, summary: string, at: nat)
    requires Valid(db)
    ensures Enabled(db, Op.CompleteChild(id, generation, fence, childGeneration, chunk, summary, at))
            <==> CanComplete(db, id, generation, fence, childGeneration, chunk, at)
  {
    if id in db.delegations {
      RowIsSound(db, id);
      AppendMeans(db, db.delegations[id].spec.child, childGeneration, chunk);
    }
  }

  /** The row is not over, stands at this generation and was last written by `at`; while it waits `at`
      fits, and while it runs the lease is open and no other reason is stored. */
  predicate CanCancel(db: Db, id: string, generation: nat, reason: string, at: nat) {
    && ValidDetail(reason) && id in db.delegations
    && db.delegations[id].generation == generation && db.delegations[id].updated <= at && db.delegations[id].terminal.None?
    && (Waits(db.delegations[id]) ==> at <= MAX_I64)
    && (Runs(db.delegations[id]) ==>
          at < db.delegations[id].lease.GetOr(0) && (db.delegations[id].reason.None? || db.delegations[id].reason == Some(reason)))
  }

  lemma CancelMeans(db: Db, id: string, generation: nat, reason: string, at: nat)
    requires Valid(db)
    ensures Enabled(db, Op.Cancel(id, generation, reason, at)) <==> CanCancel(db, id, generation, reason, at)
  {
    if id in db.delegations { RowIsSound(db, id); }
  }

  /** The worker in charge can end its row within the lease: for the stored reason if there is one,
      and with anything but a cancellation if there is none. */
  lemma FinishTakes(db: Db, next: Db, id: string, generation: nat, fence: nat, outcome: Outcome, at: nat)
    requires Valid(db) && Next(db, Op.Finish(id, generation, fence, outcome, at), next)
    ensures if CanFinish(db, id, generation, fence, outcome, at)
            then OnlyEnded(db, next, db.sessions, id, outcome, at)
            else next == db
  {
    if id in db.delegations { RowIsSound(db, id); }
  }

  /** The worker in charge, unless asked to stop, can end its row together with the child's turn. */
  lemma CompleteChildTakes(db: Db, next: Db, id: string, generation: nat, fence: nat, childGeneration: nat,
                           chunk: seq<Conversations.Message>, summary: string, at: nat)
    requires Valid(db) && Next(db, Op.CompleteChild(id, generation, fence, childGeneration, chunk, summary, at), next)
    ensures if CanComplete(db, id, generation, fence, childGeneration, chunk, at)
            then OnlyEnded(db, next, WentOn(db, db.delegations[id].spec.child, chunk), id, Completed(summary), at)
            else next == db
  {
    if id in db.delegations {
      RowIsSound(db, id);
      AppendMeans(db, db.delegations[id].spec.child, childGeneration, chunk);
    }
  }

  lemma EndsMeans(db: Db, ended: map<string, Outcome>, at: nat, next: Db)
    requires Valid(db) && Ends(db, ended, at, next)
    requires forall id :: id in ended ==> id in db.delegations && db.delegations[id].status.IsRunning?
    ensures AllEnded(db, next, ended, at)
  {
    forall id | id in db.delegations
      ensures next.delegations[id] == if id in ended then Over(db.delegations[id], ended[id], at) else db.delegations[id]
    {
      RowIsSound(db, id);
      assert IsEnded(db.delegations, id, ended, at, next.delegations);
    }
    forall event | event in db.outbox ensures event in next.outbox && next.outbox[event] == db.outbox[event] {
      assert Survives(db.outbox, event, next.outbox);
    }
    forall id | id in ended && id in db.delegations
      ensures var event := db.delegations[id].spec.eventId;
              event !in db.outbox && event in next.outbox && next.outbox[event] == News(db.delegations[id], ended[id], at)
    {
      RowIsSound(db, id);
      assert Announced(db.delegations[id], ended[id], at, next.outbox);
    }
  }

  /** The running rows whose lease has passed at `now`, and what becomes of each. */
  function Lapsed(db: Db, now: nat): map<string, Outcome> {
    map id | id in db.delegations && Runs(db.delegations[id]) && db.delegations[id].lease.GetOr(0) <= now ::
      var row := db.delegations[id];
      if row.reason.Some? then Outcome.Cancelled(row.reason.value)
      else OutcomeUnknown("worker lease expired at " + Decimal(row.lease.GetOr(0)) + "; no terminal outcome was durably recorded")
  }

  /** Whenever it is called, whatever the clocks of the workers said: every lapsed row is ended, for
      its stored reason if it has one, unless the generation counter of one of them is used up. */
  lemma ReconcileExpiredTakes(db: Db, next: Db, now: nat)
    requires Valid(db) && Next(db, Op.ReconcileExpired(now), next)
    ensures if now <= MAX_I64 && forall id :: id in Lapsed(db, now) ==> db.delegations[id].generation < MAX_I64
            then AllEnded(db, next, Lapsed(db, now), now)
            else next == db
  {
    LapsedMeans(db, now);
    if now <= MAX_I64 {
      LapsedSettle(db, now);
      if Enabled(db, Op.ReconcileExpired(now)) { EndsMeans(db, Lapsed(db, now), now, next); }
    }
  }

  lemma LapsedSettle(db: Db, now: nat)
    requires Valid(db) && now <= MAX_I64
    ensures Enabled(db, Op.ReconcileExpired(now)) <==> forall id :: id in Lapsed(db, now) ==> db.delegations[id].generation < MAX_I64
  {
    LapsedMeans(db, now);
    History.ExpiryIsNeverSkewed(db, now);
    forall id | id in db.delegations ensures id in Lapsed(db, now) <==> Expired(db.delegations[id], now) {
      RowIsSound(db, id);
    }
  }

  lemma LapsedMeans(db: Db, now: nat)
    requires Valid(db)
    ensures Lapsed(db, now) == ExpiredOutcomes(db, now)
    ensures forall id :: id in Lapsed(db, now) ==> db.delegations[id].status.IsRunning?
  {
    forall id | id in db.delegations
      ensures id in Lapsed(db, now) <==> id in ExpiredOutcomes(db, now)
      ensures id in Lapsed(db, now) ==> Lapsed(db, now)[id] == ExpiredOutcomes(db, now)[id] && db.delegations[id].status.IsRunning?
    {
      RowIsSound(db, id);
    }
  }

  /** All running rows, and what becomes of each in a restart. */
  function Interrupted(db: Db, unknown: string): map<string, Outcome> {
    map id | id in db.delegations && Runs(db.delegations[id]) ::
      if db.delegations[id].reason.Some? then Outcome.Cancelled(db.delegations[id].reason.value) else OutcomeUnknown(unknown)
  }

  /** A restart ends every running row, or none: none exactly if one was written after the given
      time or has used up its counter. */
  lemma ReconcileRunningTakes(db: Db, next: Db, reason: string, now: nat)
    requires Valid(db) && Next(db, Op.ReconcileRunning(reason, now), next)
    ensures if && ValidDetail(reason) && now <= MAX_I64
               && forall id :: id in Interrupted(db, reason) ==>
                    db.delegations[id].updated <= now && db.delegations[id].generation < MAX_I64
            then AllEnded(db, next, Interrupted(db, reason), now)
            else next == db
  {
    InterruptedMeans(db, reason);
    var ended := Interrupted(db, reason);
    if ValidDetail(reason) && now <= MAX_I64 {
      RunningSettles(db, ended.Keys, now);
      if AllMaySettle(db.delegations, ended.Keys, now) { EndsMeans(db, ended, now, next); }
    }
  }

  lemma RunningSettles(db: Db, ids: set<string>, now: nat)
    requires forall id :: id in ids ==> id in db.delegations
    ensures AllMaySettle(db.delegations, ids, now) <==>
              forall id :: id in ids ==> db.delegations[id].updated <= now && db.delegations[id].generation < MAX_I64
  {
    if AllMaySettle(db.delegations, ids, now) {
      forall id | id in ids ensures db.delegations[id].updated <= now && db.delegations[id].generation < MAX_I64 {
        assert MaySettle(db.delegations[id], now);
      }
    }
  }

  lemma InterruptedMeans(db: Db, unknown: string)
    requires Valid(db)
    ensures Interrupted(db, unknown) == RunningOutcomes(db, unknown)
    ensures forall id :: id in Interrupted(db, unknown) ==> db.delegations[id].status.IsRunning?
  {
    forall id | id in db.delegations
      ensures id in Interrupted(db, unknown) <==> id in RunningOutcomes(db, unknown)
      ensures id in Interrupted(db, unknown) ==> db.delegations[id].status.IsRunning?
      ensures id in Interrupted(db, unknown) ==> Interrupted(db, unknown)[id] == RunningOutcomes(db, unknown)[id]
    {
      RowIsSound(db, id);
    }
  }

  // ---- Sessions ----------------------------------------------------------------------

  /** A complete turn, at the generation the session stands at, while counters last. */
  ghost predicate CanGoOn(db: Db, session: string, generation: nat, chunk: seq<Conversations.Message>) {
    && session in db.sessions && db.sessions[session].generation == generation < MAX_I64
    && Conversations.CompleteTurn(chunk) && Conversations.WellFormed(chunk)
    && db.sessions[session].count + |chunk| <= MAX_I64
  }

  function WentOn(db: Db, session: string, chunk: seq<Conversations.Message>): Sessions {
    if session !in db.sessions then db.sessions
    else
      var row := db.sessions[session];
      db.sessions[session := Session(row.config, row.generation + 1, row.messages + chunk, row.count + |chunk|)]
  }

  lemma AppendMeans(db: Db, session: string, generation: nat, chunk: seq<Conversations.Message>)
    requires Valid(db)
    ensures MayAppend(db.sessions, session, generation, chunk) <==> CanGoOn(db, session, generation, chunk)
    ensures session in db.sessions ==> Appended(db, session, chunk) == db.(sessions := WentOn(db, session, chunk))
  {
    if session in db.sessions {
      assert SessionOk(session, db.sessions[session]);
      Conversations.RevalidateChunkOnly(db.sessions[session].messages, chunk);
    }
  }

  /** Any complete turn can follow what a session has; whether the whole history accepts it never
      matters. */
  lemma AppendTakes(db: Db, next: Db, session: string, generation: nat, chunk: seq<Conversations.Message>)
    requires Valid(db) && Next(db, Op.Append(session, generation, chunk), next)
    ensures next == if CanGoOn(db, session, generation, chunk) then db.(sessions := WentOn(db, session, chunk)) else db
  {
    AppendMeans(db, session, generation, chunk);
  }

  // ---- Completion delivery -----------------------------------------------------------

  /** Not delivered, and not under a claim that still runs at `now`. */
  predicate ToBeHad(row: Delivery, now: nat) {
    !row.delivered && (row.expires.Some? ==> row.expires.value <= now)
  }

  predicate OnlyDelivery(db: Db, next: Db, event: string) {
    && event in db.outbox && event in next.outbox
    && next == db.(outbox := db.outbox[event := next.outbox[event]])
  }

  lemma DeliveryIsSound(db: Db, event: string)
    requires Valid(db) && event in db.outbox
    ensures DeliveryCheck(db.outbox[event]) && db.outbox[event].delegationId in db.delegations
  {
    assert Announces(db.delegations, event, db.outbox[event]);
  }

  /** A completion that was never claimed, or whose claim has lapsed, goes to whoever claims it;
      one that is delivered or under a running claim goes to nobody. */
  lemma ClaimCompletionTakes(db: Db, next: Db, event: string, claim: string, now: nat, expires: nat)
    requires Valid(db) && Next(db, Op.ClaimCompletion(event, claim, now, expires), next)
    ensures if now < expires <= MAX_I64 && event in db.outbox && ToBeHad(db.outbox[event], now) then
              && OnlyDelivery(db, next, event)
              && next.outbox[event]
                 == db.outbox[event].(claim := Some(claim), expires := Some(expires), attempts := db.outbox[event].attempts + 1)
            else next == db
  {
    if event in db.outbox { DeliveryIsSound(db, event); }
  }

  lemma AcknowledgeTakes(db: Db, next: Db, event: string, claim: string, at: nat)
    requires Valid(db) && Next(db, Op.AcknowledgeCompletion(event, claim, at), next)
    ensures if event in db.outbox && db.outbox[event].claim == Some(claim) && db.outbox[event].created <= at <= MAX_I64 then
              && OnlyDelivery(db, next, event)
              && next.outbox[event]
                 == db.outbox[event].(delivered := true, deliveredAt := Some(at), claim := None, expires := None)
            else next == db
  {
    if event in db.outbox { DeliveryIsSound(db, event); }
  }

  lemma ReleaseTakes(db: Db, next: Db, event: string, claim: string)
    requires Valid(db) && Next(db, Op.ReleaseCompletion(event, claim), next)
    ensures if event in db.outbox && db.outbox[event].claim == Some(claim) then
              OnlyDelivery(db, next, event) && next.outbox[event] == db.outbox[event].(claim := None, expires := None)
            else next == db
  {
    if event in db.outbox { DeliveryIsSound(db, event); }
  }

  // ---- Foreground turns --------------------------------------------------------------

  /** No attempt of the session is still open. */
  ghost predicate Idle(db: Db, session: string) {
    forall id :: id in db.turns && db.turns[id].session == session ==> db.turns[id].terminal.Some?
  }

  /** The completion is under this very claim and announces a delegation of the session. */
  predicate Deliverable(db: Db, session: string, held: DeliveryClaim, at: nat) {
    && held.event in db.outbox && db.outbox[held.event].claim == Some(held.claim) && db.outbox[held.event].created <= at
    && db.outbox[held.event].delegationId in db.delegations
    && db.delegations[db.outbox[held.event].delegationId].spec.parent == session
  }

  ghost predicate CanStart(db: Db, turn: string, session: string, prompt: string, providerPrompt: string, generation: nat,
                           claims: seq<DeliveryClaim>, at: nat)
  {
    && !Blank(prompt) && !Blank(providerPrompt) && at <= MAX_I64
    && session in db.sessions && db.sessions[session].generation == generation
    && turn !in db.turns && Idle(db, session)
    && (forall i :: 0 <= i < |claims| ==> Deliverable(db, session, claims[i], at))
    && (forall i, j :: 0 <= i < j < |claims| ==> claims[i].event != claims[j].event)
  }

  predicate Names(claims: seq<DeliveryClaim>, event: string) {
    exists i :: 0 <= i < |claims| && claims[i].event == event
  }

  lemma IdleMeans(db: Db, session: string)
    requires Valid(db)
    ensures Busy(db.turns, session) <==> !Idle(db, session)
  {
    forall id | id in db.turns ensures db.turns[id].status.IsActive? <==> db.turns[id].terminal.None? {
      assert TurnOk(db.sessions, db.turns[id]);
    }
  }

  lemma AcceptableMeans(db: Db, session: string, claims: seq<DeliveryClaim>, at: nat)
    requires Valid(db) && at <= MAX_I64
    ensures Acceptable(db, session, claims, at) <==>
              && (forall i :: 0 <= i < |claims| ==> Deliverable(db, session, claims[i], at))
              && (forall i, j :: 0 <= i < j < |claims| ==> claims[i].event != claims[j].event)
  {
    forall i | 0 <= i < |claims| ensures Protocol.Deliverable(db, session, claims[i], at) <==> Deliverable(db, session, claims[i], at) {
      if claims[i].event in db.outbox { DeliveryIsSound(db, claims[i].event); }
    }
    if Distinct(Events(claims)) {
      forall i, j | 0 <= i < j < |claims| ensures claims[i].event != claims[j].event {
        assert Events(claims)[i] != Events(claims)[j];
      }
    }
  }

  lemma NamesMeans(claims: seq<DeliveryClaim>, event: string)
    ensures event in Events(claims) <==> Names(claims, event)
  {
    if Names(claims, event) {
      var i :| 0 <= i < |claims| && claims[i].event == event;
      assert Events(claims)[i] == event;
    }
  }

  lemma StartMeans(db: Db, turn: string, session: string, prompt: string, providerPrompt: string, generation: nat,
                   claims: seq<DeliveryClaim>, at: nat)
    requires Valid(db)
    ensures Enabled(db, Op.StartTurn(turn, session, prompt, providerPrompt, generation, claims, at))
            <==> CanStart(db, turn, session, prompt, providerPrompt, generation, claims, at)
  {
    IdleMeans(db, session);
    if at <= MAX_I64 { AcceptableMeans(db, session, claims, at); }
  }

  /** A turn starts exactly in an idle session at the generation presented, with claims that are
      current and the session's own; it then stands open and those completions are delivered. */
  lemma StartTurnTakes(db: Db, next: Db, turn: string, session: string, prompt: string, providerPrompt: string,
                       generation: nat, claims: seq<DeliveryClaim>, at: nat)
    requires Valid(db) && Next(db, Op.StartTurn(turn, session, prompt, providerPrompt, generation, claims, at), next)
    ensures if CanStart(db, turn, session, prompt, providerPrompt, generation, claims, at) then
              && next.sessions == db.sessions && next.delegations == db.delegations
              && next.turns == db.turns[turn := Turn(session, generation, prompt, providerPrompt, IsActive, None, at, at)]
              && next.outbox.Keys == db.outbox.Keys
              && forall event :: event in db.outbox ==>
                   next.outbox[event] == if Names(claims, event)
                                         then db.outbox[event].(delivered := true, deliveredAt := Some(at), claim := None, expires := None)
                                         else db.outbox[event]
            else next == db
  {
    IdleMeans(db, session);
    if at <= MAX_I64 { AcceptableMeans(db, session, claims, at); }
    forall event | event in db.outbox ensures event in Events(claims) <==> Names(claims, event) {
      NamesMeans(claims, event);
    }
  }

  /** An open attempt ends with the messages appended, exactly if its session can go on with them. */
  lemma CompleteTurnTakes(db: Db, next: Db, turn: string, generation: nat, chunk: seq<Conversations.Message>, at: nat)
    requires Valid(db) && Next(db, Op.CompleteTurn(turn, generation, chunk, at), next)
    ensures if && turn in db.turns && db.turns[turn].terminal.None? && db.turns[turn].generation == generation
               && db.turns[turn].updated <= at <= MAX_I64
               && CanGoOn(db, db.turns[turn].session, generation, chunk)
            then
              next == db.(sessions := WentOn(db, db.turns[turn].session, chunk),
                          turns := db.turns[turn := db.turns[turn].(status := IsDone, terminal := Some(TurnCompleted), updated := at)])
            else next == db
  {
    if turn in db.turns {
      assert TurnOk(db.sessions, db.turns[turn]);
      AppendMeans(db, db.turns[turn].session, generation, chunk);
    }
  }

  /** An open attempt that no other writer has overtaken can be given up, for a stated reason. */
  lemma TerminateTurnTakes(db: Db, next: Db, turn: string, generation: nat, outcome: TurnOutcome, at: nat)
    requires Valid(db) && Next(db, Op.TerminateTurn(turn, generation, outcome, at), next)
    ensures if && turn in db.turns && db.turns[turn].terminal.None? && db.turns[turn].generation == generation
               && db.turns[turn].updated <= at <= MAX_I64
               && db.turns[turn].session in db.sessions && db.sessions[db.turns[turn].session].generation == generation
               && !outcome.TurnCompleted? && ValidDetail(outcome.reason)
            then
              var status := match outcome { case TurnInterrupted(_) => IsInterrupted case TurnFailed(_) => IsBroken case _ => IsLost };
              next == db.(turns := db.turns[turn := db.turns[turn].(status := status, terminal := Some(outcome), updated := at)])
            else next == db
  {
    if turn in db.turns { assert TurnOk(db.sessions, db.turns[turn]); }
  }

  /** A restart closes every open attempt, unless its clock is behind one of them. */
  lemma ReconcileTurnsTakes(db: Db, next: Db, reason: string, at: nat)
    requires Valid(db) && Next(db, Op.ReconcileTurns(reason, at), next)
    ensures if && ValidDetail(reason) && at <= MAX_I64
               && forall id :: id in db.turns && db.turns[id].terminal.None? ==> db.turns[id].updated <= at
            then
              && next == db.(turns := next.turns) && next.turns.Keys == db.turns.Keys
              && forall id :: id in db.turns ==>
                   next.turns[id] == if db.turns[id].terminal.Some? then db.turns[id]
                                     else db.turns[id].(status := IsLost, terminal := Some(TurnUnknown(reason)), updated := at)
            else next == db
  {
    forall id | id in db.turns ensures db.turns[id].status.IsActive? <==> db.turns[id].terminal.None? {
      assert TurnOk(db.sessions, db.turns[id]);
    }
  }

  // ---- Creation ----------------------------------------------------------------------

  /** The spec names no delegation, event or child that some delegation has already. */
  ghost predicate Unused(db: Db, spec: Spec) {
    && spec.delegationId !in db.delegations
    && forall id :: id in db.delegations ==>
         db.delegations[id].spec.eventId != spec.eventId && db.delegations[id].spec.child != spec.child
  }

  /** A session does not delegate to itself, and the goal is non-empty and not padded. */
  predicate SoundSpec(spec: Spec) {
    spec.parent != spec.child && spec.goal != "" && Trim(spec.goal) == spec.goal
  }

  function Fresh(spec: Spec, now: nat): Delegation {
    Delegation(spec, IsPending, 1, None, 0, None, None, None, None, now, now)
  }

  lemma CreateTakes(db: Db, next: Db, spec: Spec, now: nat)
    requires Valid(db) && Next(db, Op.Create(spec, now), next)
    ensures next == if SoundSpec(spec) && Unused(db, spec) && spec.parent in db.sessions && spec.child in db.sessions && now <= MAX_I64
                    then db.(delegations := db.delegations[spec.delegationId := Fresh(spec, now)])
                    else db
  {
    TrimDecides(spec.goal);
  }

  /** With a new child session it is enough that id and event are unused. */
  lemma CreateWithChildTakes(db: Db, next: Db, config: SessionConfig, spec: Spec, now: nat)
    requires Valid(db) && Next(db, Op.CreateWithChild(config, spec, now), next)
    ensures next == if && SoundSpec(spec) && config.sessionId == spec.child && spec.parent in db.sessions && spec.child !in db.sessions
                       && now <= MAX_I64 && Unused(db, spec)
                    then db.(sessions := db.sessions[spec.child := Session(config, 1, [], 0)],
                             delegations := db.delegations[spec.delegationId := Fresh(spec, now)])
                    else db
  {
    TrimDecides(spec.goal);
    if spec.child !in db.sessions {
      forall id | id in db.delegations ensures db.delegations[id].spec.child != spec.child {
        assert DelegationOk(db.sessions.Keys, id, db.delegations[id]);
      }
    }
  }

  lemma CreateSessionTakes(db: Db, next: Db, config: SessionConfig)
    requires Next(db, Op.CreateSession(config), next)
    ensures next == if config.sessionId in db.sessions then db
                    else db.(sessions := db.sessions[config.sessionId := Session(config, 1, [], 0)])
  {
  }

  // ---- Nothing is ever stuck ---------------------------------------------------------

  /** A run of these operations from `db`. */
  ghost predicate Attempts(states: seq<Db>, ops: seq<Op>, db: Db) {
    History.Behavior(states, ops) && states[0] == db
  }

  lemma StepTaken(states: seq<Db>, ops: seq<Op>, db: Db, i: nat)
    requires Attempts(states, ops, db) && i < |ops|
    ensures i + 1 < |states| && Valid(states[i]) && Next(states[i], ops[i], states[i + 1])
  {
    History.AlwaysValid(states, ops, i);
    assert History.StepAt(states, ops, i);
  }

  /** However it was claimed before, an undelivered completion can be delivered: once any claim on
      it has lapsed, whoever claims it next and acknowledges has it. */
  lemma NoCompletionIsStranded(db: Db, event: string, claim: string, now: nat, states: seq<Db>)
    requires Valid(db) && event in db.outbox && ToBeHad(db.outbox[event], now)
    requires db.outbox[event].created <= now < MAX_I64
    requires Attempts(states, [Op.ClaimCompletion(event, claim, now, now + 1), Op.AcknowledgeCompletion(event, claim, now)], db)
    ensures event in states[2].outbox && states[2].outbox[event].delivered
    ensures states[2].outbox[event].payload == db.outbox[event].payload
  {
    var ops := [Op.ClaimCompletion(event, claim, now, now + 1), Op.AcknowledgeCompletion(event, claim, now)];
    StepTaken(states, ops, db, 0);
    ClaimCompletionTakes(db, states[1], event, claim, now, now + 1);
    StepTaken(states, ops, db, 1);
    AcknowledgeTakes(states[1], states[2], event, claim, now);
  }

  /** And a prompt to its session can carry it to the provider, if no attempt is open there. */
  lemma ACompletionReachesItsParent(db: Db, event: string, claim: string, turn: string, prompt: string, shown: string, now: nat,
                                    states: seq<Db>)
    requires Valid(db) && event in db.outbox && ToBeHad(db.outbox[event], now)
    requires db.outbox[event].created <= now < MAX_I64 && !Blank(prompt) && !Blank(shown) && turn !in db.turns
    requires var owner := db.outbox[event].delegationId; owner in db.delegations && Idle(db, db.delegations[owner].spec.parent)
    requires var session := db.delegations[db.outbox[event].delegationId].spec.parent;
             && session in db.sessions
             && Attempts(states, [Op.ClaimCompletion(event, claim, now, now + 1),
                                  Op.StartTurn(turn, session, prompt, shown, db.sessions[session].generation,
                                               [DeliveryClaim(event, claim)], now)], db)
    ensures event in states[2].outbox && states[2].outbox[event].delivered
    ensures turn in states[2].turns && states[2].turns[turn].providerPrompt == shown && states[2].turns[turn].terminal.None?
  {
    var session := db.delegations[db.outbox[event].delegationId].spec.parent;
    var claims := [DeliveryClaim(event, claim)];
    var ops := [Op.ClaimCompletion(event, claim, now, now + 1),
                Op.StartTurn(turn, session, prompt, shown, db.sessions[session].generation, claims, now)];
    StepTaken(states, ops, db, 0);
    ClaimCompletionTakes(db, states[1], event, claim, now, now + 1);
    StepTaken(states, ops, db, 1);
    assert claims[0] == DeliveryClaim(event, claim);
    assert Names(claims, event);
    StartTurnTakes(states[1], states[2], turn, session, prompt, shown, db.sessions[session].generation, claims, now);
  }

  /** Whatever became of its worker, a delegation can be ended: by a cancellation while it waits, and
      once its lease has passed by a reconciliation, for the stored reason if there is one. */
  lemma NoDelegationIsStranded(db: Db, id: string, reason: string, now: nat, states: seq<Db>)
    requires Valid(db) && id in db.delegations && db.delegations[id].terminal.None?
    requires ValidDetail(reason) && db.delegations[id].updated <= now <= MAX_I64
    requires Runs(db.delegations[id]) ==> db.delegations[id].lease.GetOr(0) <= now
    requires forall other :: other in Lapsed(db, now) ==> db.delegations[other].generation < MAX_I64
    requires Attempts(states, [Op.Cancel(id, db.delegations[id].generation, reason, now), Op.ReconcileExpired(now)], db)
    ensures id in states[2].delegations && states[2].delegations[id].terminal.Some?
    ensures db.delegations[id].spec.eventId in states[2].outbox
  {
    var ops := [Op.Cancel(id, db.delegations[id].generation, reason, now), Op.ReconcileExpired(now)];
    RowIsSound(db, id);
    StepTaken(states, ops, db, 0);
    CancelTakes(db, states[1], id, db.delegations[id].generation, reason, now);
    if Waits(db.delegations[id]) {
      History.FinishedForever(states, ops, 1, 2, id);
    } else {
      StepTaken(states, ops, db, 1);
      assert states[1] == db;
      LapsedCanEnd(db, states[2], id, now);
    }
  }

  lemma LapsedCanEnd(db: Db, next: Db, id: string, now: nat)
    requires Valid(db) && id in db.delegations && Runs(db.delegations[id]) && db.delegations[id].lease.GetOr(0) <= now <= MAX_I64
    requires forall other :: other in Lapsed(db, now) ==> db.delegations[other].generation < MAX_I64
    requires Next(db, Op.ReconcileExpired(now), next)
    ensures id in next.delegations && next.delegations[id].terminal.Some? && db.delegations[id].spec.eventId in next.outbox
  {
    ReconcileExpiredTakes(db, next, now);
    assert id in Lapsed(db, now);
  }

  /** A session can always go on: after a restart's reconciliation a turn can start in it and append
      any complete exchange. */
  lemma NoSessionIsStranded(db: Db, session: string, turn: string, prompt: string, chunk: seq<Conversations.Message>,
                            reason: string, at: nat, states: seq<Db>)
    requires Valid(db) && session in db.sessions && turn !in db.turns && !Blank(prompt) && ValidDetail(reason)
    requires CanGoOn(db, session, db.sessions[session].generation, chunk) && at <= MAX_I64
    requires forall id :: id in db.turns && db.turns[id].terminal.None? ==> db.turns[id].updated <= at
    requires var generation := db.sessions[session].generation;
             Attempts(states, [Op.ReconcileTurns(reason, at), Op.StartTurn(turn, session, prompt, prompt, generation, [], at),
                               Op.CompleteTurn(turn, generation, chunk, at)], db)
    ensures session in states[3].sessions && states[3].sessions[session].messages == db.sessions[session].messages + chunk
    ensures turn in states[3].turns && states[3].turns[turn].terminal == Some(TurnCompleted)
  {
    var generation := db.sessions[session].generation;
    var ops := [Op.ReconcileTurns(reason, at), Op.StartTurn(turn, session, prompt, prompt, generation, [], at),
                Op.CompleteTurn(turn, generation, chunk, at)];
    StepTaken(states, ops, db, 0);
    ReconcileTurnsTakes(db, states[1], reason, at);
    StepTaken(states, ops, db, 1);
    StartTurnTakes(states[1], states[2], turn, session, prompt, prompt, generation, [], at);
    StepTaken(states, ops, db, 2);
    CompleteTurnTakes(states[2], states[3], turn, generation, chunk, at);
  }
}
