/** The reconcile loops of `sqlite_delegation.rs:462-603`: select the rows, then write and
    announce them one by one inside a single transaction. */
module Reconciliation {
  import opened Basics
  import opened Tables
  import opened Protocol
  import opened Transactions
  import Invariance

  ghost predicate Selects(table: Delegations, ids: seq<string>, wanted: Delegation -> bool) {
    Distinct(ids) && forall id :: id in ids <==> id in table && wanted(table[id])
  }

  /** A SELECT over the delegations table. */
  method Select(table: Delegations, wanted: Delegation -> bool) returns (ids: seq<string>)
    ensures Selects(table, ids, wanted)
  {
    ids := [];
    var left := table.Keys;
    while left != {}
      invariant left <= table.Keys
      invariant Distinct(ids)
      invariant forall id :: id in ids <==> id in table && id !in left && wanted(table[id])
      decreases |left|
    {
      var id :| id in left;
      left := left - {id};
      if wanted(table[id]) {
        ids := ids + [id];
      }
    }
  }

  /** The outcomes of the first selected rows. */
  function Outcomes(table: Delegations, ids: seq<string>, unknown: Delegation -> string): map<string, Outcome> {
    map id | id in ids && id in table :: Reconciled(table[id], unknown(table[id]))
  }

  lemma OutcomesSnoc(table: Delegations, ids: seq<string>, unknown: Delegation -> string, id: string)
    requires id in table
    ensures Outcomes(table, ids + [id], unknown)
            == Outcomes(table, ids, unknown)[id := Reconciled(table[id], unknown(table[id]))]
  {
  }

  lemma EventOfSnoc(table: Delegations, ids: set<string>, id: string)
    requires id in table
    ensures EventsOf(table, ids + {id}) == EventsOf(table, ids) + {table[id].spec.eventId}
  {
  }

  /** The next live row is still as it was, and its event is still free. */
  lemma NextRowUntouched(db: Db, ended: map<string, Outcome>, at: nat, mid: Db, id: string)
    requires KeysUnique(db.delegations) && OutboxSound(db.delegations, db.outbox)
    requires Ends(db, ended, at, mid)
    requires id in db.delegations && !db.delegations[id].Over() && id !in ended
    ensures id in mid.delegations && mid.delegations[id] == db.delegations[id]
    ensures db.delegations[id].spec.eventId !in mid.outbox
  {
    assert IsEnded(db.delegations, id, ended, at, mid.delegations);
    Invariance.EventFree(db.delegations, db.outbox, id);
    var event := db.delegations[id].spec.eventId;
    if event in mid.outbox {
      assert event in EventsOf(db.delegations, ended.Keys);
      var other :| other in ended.Keys && other in db.delegations && db.delegations[other].spec.eventId == event;
      Invariance.KeysDifferAt(db.delegations, other, id);
    }
  }

  lemma EndsExtends(db: Db, ended: map<string, Outcome>, at: nat, mid: Db, id: string, outcome: Outcome)
    requires KeysUnique(db.delegations) && OutboxSound(db.delegations, db.outbox)
    requires Ends(db, ended, at, mid)
    requires id in db.delegations && !db.delegations[id].Over() && id !in ended
    requires id in mid.delegations
    ensures Ends(db, ended[id := outcome], at, EndOne(mid, id, outcome, at))
  {
    NextRowUntouched(db, ended, at, mid, id);
    var next := EndOne(mid, id, outcome, at);
    var more := ended[id := outcome];
    assert more.Keys == ended.Keys + {id};
    EventOfSnoc(db.delegations, ended.Keys, id);
    forall other | other in db.delegations ensures IsEnded(db.delegations, other, more, at, next.delegations) {
      assert IsEnded(db.delegations, other, ended, at, mid.delegations);
    }
    forall event ensures Survives(db.outbox, event, next.outbox) {
      assert Survives(db.outbox, event, mid.outbox);
    }
    forall other | other in more && other in db.delegations
      ensures Announced(db.delegations[other], more[other], at, next.outbox)
    {
      if other != id {
        assert Announced(db.delegations[other], ended[other], at, mid.outbox);
      }
    }
  }

  lemma NothingEnded(db: Db, at: nat)
    ensures Ends(db, map[], at, db)
  {
    assert EventsOf(db.delegations, {}) == {};
  }

  /** The completions report exactly the ended delegations, once each, in the order given. */
  ghost predicate Reports(table: Delegations, ids: seq<string>, ended: map<string, Outcome>, at: nat,
                          completions: seq<Completion>) {
    && |completions| == |ids|
    && forall i :: 0 <= i < |ids| ==> ReportsAt(table, ids[i], ended, at, completions[i])
  }

  predicate ReportsAt(table: Delegations, id: string, ended: map<string, Outcome>, at: nat, completion: Completion) {
    id in table && id in ended && completion == Announcement(table[id], ended[id], at)
  }

  /** The transaction after the selected rows `ids`: each written, announced and reported. */
  ghost predicate SettledSoFar(db: Db, ids: seq<string>, unknown: Delegation -> string, at: nat, tx: Db,
                               completions: seq<Completion>) {
    && Ends(db, Outcomes(db.delegations, ids, unknown), at, tx)
    && Reports(db.delegations, ids, Outcomes(db.delegations, ids, unknown), at, completions)
    && AllMaySettle(db.delegations, Elements(ids), at)
  }

  lemma NoneSettled(db: Db, unknown: Delegation -> string, at: nat)
    ensures SettledSoFar(db, [], unknown, at, db, [])
  {
    NothingEnded(db, at);
    assert Outcomes(db.delegations, [], unknown) == map[];
  }

  lemma OneMoreSettled(db: Db, ids: seq<string>, unknown: Delegation -> string, at: nat, tx: Db,
                       completions: seq<Completion>, id: string)
    requires Valid(db) && SettledSoFar(db, ids, unknown, at, tx, completions)
    requires id in db.delegations && !db.delegations[id].Over() && id !in ids && MaySettle(db.delegations[id], at)
    requires id in tx.delegations
    ensures var outcome := Reconciled(db.delegations[id], unknown(db.delegations[id]));
            SettledSoFar(db, ids + [id], unknown, at, EndOne(tx, id, outcome, at),
                         completions + [Announcement(db.delegations[id], outcome, at)])
  {
    var outcome := Reconciled(db.delegations[id], unknown(db.delegations[id]));
    var ended := Outcomes(db.delegations, ids, unknown);
    OutcomesSnoc(db.delegations, ids, unknown, id);
    EndsExtends(db, ended, at, tx, id, outcome);
    ReportsSnoc(db.delegations, ids, ended, at, completions, id, outcome);
  }

  /** Writes and announces every selected row, or reports the first row that refuses. */
  method SettleEach(db: Db, ids: seq<string>, unknown: Delegation -> string, at: nat)
    returns (r: Result<(Db, seq<Completion>), StoreError>)
    requires Valid(db) && at <= MAX_I64 && Distinct(ids)
    requires forall id :: id in ids ==> id in db.delegations && db.delegations[id].status.IsRunning?
    ensures r.Ok? <==> AllMaySettle(db.delegations, Elements(ids), at)
    ensures r.Ok? ==> SettledSoFar(db, ids, unknown, at, r.value.0, r.value.1)
    ensures r.Err? ==> !r.error.Storage?
  {
    var tx := db;
    var completions := [];
    NoneSettled(db, unknown, at);
    assert ids[..0] == [];
    for i := 0 to |ids|
      invariant SettledSoFar(db, ids[..i], unknown, at, tx, completions)
    {
      assert ids[i] !in ids[..i] && ids[..i + 1] == ids[..i] + [ids[i]];
      ghost var mid := tx;
      var written := SettleOne(db, Outcomes(db.delegations, ids[..i], unknown), unknown, at, tx, ids[i]);
      if written.Err? {
        RefusedAt(db.delegations, ids, i, at);
        return Err(written.error);
      }
      OneMoreSettled(db, ids[..i], unknown, at, mid, completions, ids[i]);
      tx, completions := written.value.0, completions + [written.value.1];
    }
    assert ids[..|ids|] == ids;
    return Ok((tx, completions));
  }

  lemma RefusedAt(table: Delegations, ids: seq<string>, i: nat, at: nat)
    requires i < |ids| && ids[i] in table && !MaySettle(table[ids[i]], at)
    ensures !AllMaySettle(table, Elements(ids), at)
  {
    assert ids[i] in Elements(ids);
  }

  lemma ReportsSnoc(table: Delegations, ids: seq<string>, ended: map<string, Outcome>, at: nat,
                    completions: seq<Completion>, id: string, outcome: Outcome)
    requires Reports(table, ids, ended, at, completions) && id in table && id !in ids
    ensures Reports(table, ids + [id], ended[id := outcome], at, completions + [Announcement(table[id], outcome, at)])
  {
    var more := ids + [id];
    var grown := completions + [Announcement(table[id], outcome, at)];
    forall i | 0 <= i < |more| ensures ReportsAt(table, more[i], ended[id := outcome], at, grown[i]) {
      if i < |ids| { assert ReportsAt(table, ids[i], ended, at, completions[i]); }
    }
  }

  /** One row of the loop, inside the transaction that already settled `ended`. */
  method SettleOne(db: Db, ghost ended: map<string, Outcome>, unknown: Delegation -> string, at: nat, tx: Db, id: string)
    returns (r: Result<(Db, Completion), StoreError>)
    requires Valid(db) && Ends(db, ended, at, tx) && at <= MAX_I64
    requires id in db.delegations && db.delegations[id].status.IsRunning? && id !in ended
    ensures r.Ok? <==> MaySettle(db.delegations[id], at)
    ensures r.Ok? ==>
              var outcome := Reconciled(db.delegations[id], unknown(db.delegations[id]));
              && id in tx.delegations && r.value.0 == EndOne(tx, id, outcome, at)
              && r.value.1 == Announcement(db.delegations[id], outcome, at)
    ensures r.Err? ==> !r.error.Storage?
  {
    var raw := db.delegations[id];
    assert DelegationOk(db.sessions.Keys, id, raw);
    var _ :- EnsureMonotonic(raw, at);
    var intent := IntentOf(raw);
    if intent.Err? { return Err(Invalid); }
    var outcome := match intent.value
      case Some(asked) => Outcome.Cancelled(asked.reason)
      case None => Outcome.OutcomeUnknown(unknown(raw));
    NextRowUntouched(db, ended, at, tx, id);
    EndedPassesCheck(raw, outcome, at);
    NotYetAnnounced(db, ended, at, tx, id);
    var written := WriteTerminal(tx.delegations, tx.outbox, raw, outcome, at);
    if written.Err? { return Err(written.error); }
    return Ok((tx.(delegations := written.value.0, outbox := written.value.1), Announcement(raw, outcome, at)));
  }

  lemma EndedPassesCheck(raw: Delegation, outcome: Outcome, at: nat)
    requires Lawful(raw) && !raw.Over() && raw.updated <= at
    ensures DelegationCheck(Ended(raw, outcome, at))
  {
  }

  lemma NotYetAnnounced(db: Db, ended: map<string, Outcome>, at: nat, mid: Db, id: string)
    requires Valid(db) && Ends(db, ended, at, mid)
    requires id in db.delegations && !db.delegations[id].Over() && id !in ended
    ensures !AnnouncedFor(mid.outbox, id)
  {
    forall event | event in mid.outbox ensures mid.outbox[event].delegationId != id {
      if event in db.outbox {
        assert Survives(db.outbox, event, mid.outbox);
        assert Announces(db.delegations, event, db.outbox[event]);
      } else {
        assert event in EventsOf(db.delegations, ended.Keys);
        var other :| other in ended.Keys && other in db.delegations && db.delegations[other].spec.eventId == event;
        assert Announced(db.delegations[other], ended[other], at, mid.outbox);
        assert DelegationOk(db.sessions.Keys, other, db.delegations[other]);
      }
    }
  }

  /** Every ended delegation is reported exactly once, and nothing else is. */
  ghost predicate ReportsAll(table: Delegations, ended: map<string, Outcome>, at: nat, completions: seq<Completion>) {
    && |completions| == |ended|
    && (forall i :: 0 <= i < |completions| ==>
          ReportsAt(table, completions[i].delegationId, ended, at, completions[i]))
    && (forall i, j :: 0 <= i < j < |completions| ==> completions[i].delegationId != completions[j].delegationId)
  }

  lemma ReportedAll(table: Delegations, ids: seq<string>, ended: map<string, Outcome>, at: nat,
                    completions: seq<Completion>)
    requires Reports(table, ids, ended, at, completions) && Distinct(ids) && Elements(ids) == ended.Keys
    requires forall id :: id in ids ==> id in table && table[id].spec.delegationId == id
    ensures ReportsAll(table, ended, at, completions)
  {
    DistinctSize(ids);
    forall i | 0 <= i < |completions|
      ensures completions[i].delegationId == ids[i]
      ensures ReportsAt(table, completions[i].delegationId, ended, at, completions[i])
    {
      assert ReportsAt(table, ids[i], ended, at, completions[i]);
      assert ids[i] in ids;
    }
  }

  lemma ExpiredAreSelected(db: Db, now: nat, ids: seq<string>, expired: Delegation -> bool, unknown: Delegation -> string)
    requires Valid(db) && Selects(db.delegations, ids, expired)
    requires forall row :: expired(row) == Expired(row, now)
    requires forall row: Delegation :: row.lease.Some? ==> unknown(row) == ExpiryReason(row.lease.value)
    ensures Outcomes(db.delegations, ids, unknown) == ExpiredOutcomes(db, now)
    ensures Elements(ids) == ExpiredOutcomes(db, now).Keys
    ensures forall id :: id in ids ==> id in db.delegations && db.delegations[id].spec.delegationId == id
  {
    forall id | id in ids ensures db.delegations[id].spec.delegationId == id {
      assert DelegationOk(db.sessions.Keys, id, db.delegations[id]);
    }
  }

  lemma RunningAreSelected(db: Db, reason: string, ids: seq<string>, running: Delegation -> bool, unknown: Delegation -> string)
    requires Valid(db) && Selects(db.delegations, ids, running)
    requires forall row: Delegation :: running(row) == row.status.IsRunning?
    requires forall row: Delegation :: unknown(row) == reason
    ensures Outcomes(db.delegations, ids, unknown) == RunningOutcomes(db, reason)
    ensures Elements(ids) == RunningOutcomes(db, reason).Keys
    ensures forall id :: id in ids ==> id in db.delegations && db.delegations[id].spec.delegationId == id
  {
    forall id | id in ids ensures db.delegations[id].spec.delegationId == id {
      assert DelegationOk(db.sessions.Keys, id, db.delegations[id]);
    }
  }

  // ---- Foreground loops --------------------------------------------------------------

  lemma DeliverOneMore(outbox: Outbox, events: seq<string>, event: string, at: nat)
    requires event in outbox && event !in events
    ensures DeliverAll(outbox, events + [event], at) == DeliverAll(outbox, events, at)[event := Delivered(outbox[event], at)]
  {
  }

  /** A claim that still passes in the middle of the loop passed from the start, and names an
      event no earlier claim named. */
  lemma StillDeliverable(db: Db, events: seq<string>, session: string, held: DeliveryClaim, at: nat)
    requires Deliverable(db.(outbox := DeliverAll(db.outbox, events, at)), session, held, at)
    ensures Deliverable(db, session, held, at) && held.event !in events
  {
  }

  /** The delivery loop of `start_with_deliveries`: the k-th UPDATE hits exactly one row if
      and only if that claim is deliverable and no earlier one named the same event. */
  method DeliverClaims(db: Db, session: string, claims: seq<DeliveryClaim>, at: nat)
    returns (r: Result<Outbox, StoreError>)
    requires Valid(db) && at <= MAX_I64
    ensures r.Ok? <==> Acceptable(db, session, claims, at)
    ensures r.Ok? ==> r.value == DeliverAll(db.outbox, Events(claims), at)
    ensures r.Err? ==> r.error == Invalid
  {
    var tx := db.outbox;
    for i := 0 to |claims|
      invariant AllDeliverable(db, session, claims[..i], at)
      invariant Distinct(Events(claims[..i]))
      invariant tx == DeliverAll(db.outbox, Events(claims[..i]), at)
    {
      var held := claims[i];
      assert claims[..i + 1] == claims[..i] + [held];
      assert Events(claims[..i + 1]) == Events(claims[..i]) + [held.event];
      if !Deliverable(db.(outbox := tx), session, held, at) {
        NotAcceptable(db, session, claims, at, i);
        return Err(Invalid);
      }
      StillDeliverable(db, Events(claims[..i]), session, held, at);
      DeliverOneMore(db.outbox, Events(claims[..i]), held.event, at);
      assert tx[held.event] == db.outbox[held.event];
      var updated := UpdateDelivery(tx, held.event, Delivered(tx[held.event], at));
      if updated.Err? { return Err(Invalid); }
      tx := updated.value;
    }
    assert claims[..|claims|] == claims;
    return Ok(tx);
  }

  lemma NotAcceptable(db: Db, session: string, claims: seq<DeliveryClaim>, at: nat, i: nat)
    requires i < |claims|
    requires !Deliverable(db.(outbox := DeliverAll(db.outbox, Events(claims[..i]), at)), session, claims[i], at)
    ensures !Acceptable(db, session, claims, at)
  {
    var event := claims[i].event;
    if event in Events(claims[..i]) {
      var k :| 0 <= k < i && Events(claims[..i])[k] == event;
      assert Events(claims)[k] == Events(claims)[i];
    }
  }

  predicate Settled(turns: Turns, tx: Turns, id: string, done: bool, reason: string, at: nat) {
    && id in turns && id in tx
    && tx[id] == (if done then Closed(turns[id], TurnUnknown(reason), at) else turns[id])
    && (done ==> turns[id].updated <= at)
  }

  ghost predicate SettledExcept(turns: Turns, tx: Turns, ids: set<string>, left: set<string>, reason: string, at: nat) {
    && tx.Keys == turns.Keys
    && forall id {:trigger tx[id]} {:trigger turns[id]} | id in turns ::
         Settled(turns, tx, id, id in ids && id !in left, reason, at)
  }

  lemma SettleNext(turns: Turns, tx: Turns, ids: set<string>, left: set<string>, reason: string, at: nat, id: string)
    requires SettledExcept(turns, tx, ids, left, reason, at)
    requires id in ids && id in left && id in turns && turns[id].updated <= at
    ensures SettledExcept(turns, tx[id := Closed(turns[id], TurnUnknown(reason), at)], ids, left - {id}, reason, at)
  {
    var next := tx[id := Closed(turns[id], TurnUnknown(reason), at)];
    forall other | other in turns
      ensures Settled(turns, next, other, other in ids && other !in left - {id}, reason, at)
    {
      assert Settled(turns, tx, other, other in ids && other !in left, reason, at);
    }
  }

  lemma AllSettled(turns: Turns, tx: Turns, reason: string, at: nat)
    requires SettledExcept(turns, tx, set id | id in turns && turns[id].status.IsActive?, {}, reason, at)
    ensures tx == CloseAll(turns, reason, at)
    ensures forall id | id in turns && turns[id].status.IsActive? :: turns[id].updated <= at
  {
  }

  /** The loop of the foreground `reconcile_running`. */
  method CloseEach(sessions: Sessions, turns: Turns, reason: string, at: nat)
    returns (r: Result<(Turns, set<string>), StoreError>)
    requires TurnsOk(sessions, turns) && at <= MAX_I64
    ensures r.Ok? <==> AllMayClose(turns, at)
    ensures r.Ok? ==> r.value.0 == CloseAll(turns, reason, at)
    ensures r.Ok? ==> r.value.1 == set id | id in turns && turns[id].status.IsActive?
    ensures r.Err? ==> r.error == Invalid
  {
    var ids := set id | id in turns && turns[id].status.IsActive?;
    var left := ids;
    var tx := turns;
    while left != {}
      invariant left <= ids && SettledExcept(turns, tx, ids, left, reason, at)
      decreases |left|
    {
      var id :| id in left;
      var raw := turns[id];
      assert TurnOk(sessions, raw);
      if at < raw.updated { return Err(Invalid); }
      SettleNext(turns, tx, ids, left, reason, at, id);
      var updated := UpdateTurn(tx, id, Closed(raw, TurnUnknown(reason), at));
      if updated.Err? { return Err(Invalid); }
      tx := updated.value;
      left := left - {id};
    }
    AllSettled(turns, tx, reason, at);
    return Ok((tx, ids));
  }
}
