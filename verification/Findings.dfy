/** Reachable databases, each given with the run that leads to it from the empty one, on which an
    operation does not do what one would expect of it. */
module Findings {
  import opened Basics
  import opened Tables
  import opened Protocol
  import opened Invariance
  import History

  /** Everything `create` itself checks before it inserts the row. */
  predicate PassesCreateGuards(db: Db, spec: Spec, now: nat) {
    && ValidSpec(spec) && !Collides(db.delegations, spec)
    && spec.parent in db.sessions && spec.child in db.sessions
    && now <= MAX_I64
  }

  const PARENT := SessionConfig("parent", Direct, [])
  const CHILD := SessionConfig("child", Direct, [])
  const FIRST := Spec("first", "first-done", "parent", "child", "goal", None)
  const SECOND := Spec("second", "second-done", "parent", "child", "goal", None)

  /** A run from the empty database to `db`. */
  ghost predicate LeadsTo(states: seq<Db>, ops: seq<Op>, db: Db) {
    History.Behavior(states, ops) && states[0] == EMPTY && states[|states| - 1] == db
  }

  lemma LeadsOn(states: seq<Db>, ops: seq<Op>, db: Db, op: Op, next: Db)
    requires LeadsTo(states, ops, db) && Next(db, op, next)
    ensures LeadsTo(states + [next], ops + [op], next)
  {
    History.Extend(states, ops, op, next);
  }

  // ---- A second delegation for one child ---------------------------------------------

  const WITH_PARENT := WithSession(EMPTY, PARENT)
  const WITH_CHILD := WithSession(WITH_PARENT, CHILD)

  /** `create` has no guard for a child session that already serves another delegation: its
      guards pass, and the UNIQUE child column refuses. */
  lemma CreateCanHitTheChildConstraint() returns (states: seq<Db>, ops: seq<Op>, db: Db)
    ensures LeadsTo(states, ops, db)
    ensures PassesCreateGuards(db, SECOND, 0) && !Enabled(db, Op.Create(SECOND, 0))
    ensures ChildTaken(db.delegations, SECOND.child)
  {
    EmptyIsValid();
    states, ops, db := [EMPTY], [], EMPTY;
    LeadsOn(states, ops, EMPTY, Op.CreateSession(PARENT), WITH_PARENT);
    states, ops := states + [WITH_PARENT], ops + [Op.CreateSession(PARENT)];
    LeadsOn(states, ops, WITH_PARENT, Op.CreateSession(CHILD), WITH_CHILD);
    states, ops := states + [WITH_CHILD], ops + [Op.CreateSession(CHILD)];
    db := Created(WITH_CHILD, FIRST, 0);
    LeadsOn(states, ops, WITH_CHILD, Op.Create(FIRST, 0), db);
    states, ops := states + [db], ops + [Op.Create(FIRST, 0)];
    assert "first" in db.delegations && db.delegations["first"].spec.child == "child";
  }

  /** Through `create_with_child` the constraint is out of reach: passing its guards is
      enough, because a child that serves a delegation already exists as a session. */
  lemma CreateWithChildNeverDoes(db: Db, config: SessionConfig, spec: Spec, now: nat)
    requires Valid(db)
    requires config.sessionId == spec.child && spec.child !in db.sessions
    ensures PassesCreateGuards(WithSession(db, config), spec, now) ==>
              Enabled(db, Op.CreateWithChild(config, spec, now))
              && Enabled(WithSession(db, config), Op.Create(spec, now))
  {
    FreshChildIsFree(db.sessions.Keys, db.delegations, spec.child);
  }

  // ---- A running delegation ----------------------------------------------------------

  const PENDING := Created(WithSession(WITH_PARENT, CHILD), FIRST, 0)

  function Running(now: nat, deadline: nat): Db {
    PENDING.(delegations := PENDING.delegations["first" := Claimed(NewDelegation(FIRST, 0), "worker", now, deadline)])
  }

  /** The first delegation, created with its child and claimed at `now`. */
  lemma ClaimedRun(now: nat, deadline: nat) returns (states: seq<Db>, ops: seq<Op>)
    requires now < deadline <= MAX_I64
    ensures LeadsTo(states, ops, Running(now, deadline))
  {
    EmptyIsValid();
    states, ops := [EMPTY], [];
    LeadsOn(states, ops, EMPTY, Op.CreateSession(PARENT), WITH_PARENT);
    states, ops := states + [WITH_PARENT], ops + [Op.CreateSession(PARENT)];
    LeadsOn(states, ops, WITH_PARENT, Op.CreateWithChild(CHILD, FIRST, 0), PENDING);
    states, ops := states + [PENDING], ops + [Op.CreateWithChild(CHILD, FIRST, 0)];
    LeadsOn(states, ops, PENDING, Op.Claim("first", 1, "worker", now, deadline), Running(now, deadline));
    states, ops := states + [Running(now, deadline)], ops + [Op.Claim("first", 1, "worker", now, deadline)];
  }

  lemma StopIsAReason()
    ensures ValidDetail("stop") && ValidDetail("restart")
  {
    assert !IsSpace("stop"[0]) && !IsSpace("restart"[0]);
  }

  /** A cancellation stamped at 50 and a worker whose clock still reads 40: its `finish` for that
      very cancellation is refused with the lease open, and the row stays running. */
  lemma StaleFinishHappens() returns (states: seq<Db>, ops: seq<Op>, db: Db)
    ensures LeadsTo(states, ops, db)
    ensures "first" in db.delegations
    ensures var row := db.delegations["first"];
            && row.status.IsRunning? && row.reason == Some("stop") && row.lease == Some(100) && row.updated == 50
            && !Enabled(db, Op.Finish("first", row.generation, row.fence, Outcome.Cancelled("stop"), 40))
            && Enabled(db, Op.Finish("first", row.generation, row.fence, Outcome.Cancelled("stop"), 50))
  {
    StopIsAReason();
    states, ops := ClaimedRun(0, 100);
    var running := Running(0, 100);
    var op := Op.Cancel("first", 2, "stop", 50);
    db := Cancelling(running, "first", "stop", 50);
    LeadsOn(states, ops, running, op, db);
    states, ops := states + [db], ops + [op];
  }

  /** A row claimed at 1000, then a restart on a host whose clock reads 500: the reconciliation of
      running rows does nothing, though the row is running. */
  lemma SkewHappens() returns (states: seq<Db>, ops: seq<Op>, db: Db)
    ensures LeadsTo(states, ops, db)
    ensures "first" in db.delegations && db.delegations["first"].status.IsRunning?
    ensures !Enabled(db, Op.ReconcileRunning("restart", 500))
    ensures forall next :: Next(db, Op.ReconcileRunning("restart", 500), next) ==> next == db
  {
    db := Running(1000, 2000);
    states, ops := ClaimedRun(1000, 2000);
    var ended := RunningOutcomes(db, "restart");
    assert "first" in ended.Keys && !MaySettle(db.delegations["first"], 500);
  }
}
