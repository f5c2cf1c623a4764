/** The gateway's use of the store (`apps/hermesd/src/cli/gateway.rs`): claiming completions
    for a prompt, accepting or refusing it, and asking for a cancellation, while anything may
    happen to the database between two of its store calls. */
module Gateway {
  import opened Basics
  import opened Tables
  import opened Protocol
  import opened Transactions
  import opened Stores
  import opened Worlds
  import History
  import Deliveries
  import Invariance
  import Progress

  const COMPLETION_DELIVERY_LIMIT: nat := 32
  const DELIVERY_CLAIM_DURATION_MS: nat := 30_000
  const MAX_U64: nat := 0xffff_ffff_ffff_ffff

  function SaturatingAdd(a: nat, b: nat): nat {
    if a + b <= MAX_U64 then a + b else MAX_U64
  }

  // ---- Claims under interference -----------------------------------------------------

  /** Nobody else uses the claim ids this gateway drew. */
  predicate Foreign(op: Op, ids: set<string>) {
    op.ClaimCompletion? ==> op.claim !in ids
  }

  predicate NoNewHold(before: Outbox, after: Outbox, event: string, ids: set<string>) {
    event in after && after[event].claim.Some? && after[event].claim.value in ids ==>
      event in before && before[event].claim == after[event].claim
  }

  /** Rows held under `ids` may be lost, but none is gained. */
  ghost predicate HoldsFade(before: Outbox, after: Outbox, ids: set<string>) {
    forall event {:trigger NoNewHold(before, after, event, ids)} :: NoNewHold(before, after, event, ids)
  }

  /** An announcement once made stays, with its content and its owner's parent. */
  ghost predicate Lasting(before: Db, after: Db) {
    forall event {:trigger Lasts(before, after, event)} :: Lasts(before, after, event)
  }

  predicate Lasts(before: Db, after: Db, event: string) {
    event in before.outbox ==>
      && event in after.outbox
      && after.outbox[event].delegationId == before.outbox[event].delegationId
      && after.outbox[event].payload == before.outbox[event].payload
      && (before.outbox[event].delegationId in before.delegations ==>
            && before.outbox[event].delegationId in after.delegations
            && after.delegations[before.outbox[event].delegationId].spec
               == before.delegations[before.outbox[event].delegationId].spec)
  }

  lemma StepLasts(db: Db, op: Op, next: Db)
    requires Valid(db) && Next(db, op, next)
    ensures Lasting(db, next)
  {
    forall event ensures Lasts(db, next, event) {
      if event in db.outbox {
        Deliveries.StepProgresses(db, op, next, event);
        if db.outbox[event].delegationId in db.delegations {
          History.StepEvolves(db, op, next, db.outbox[event].delegationId);
        }
      }
    }
  }

  lemma LastsReflexively(db: Db)
    ensures Lasting(db, db)
  {
    forall event ensures Lasts(db, db, event) {}
  }

  lemma LastsTransitively(a: Db, b: Db, c: Db)
    requires Lasting(a, b) && Lasting(b, c)
    ensures Lasting(a, c)
  {
    forall event ensures Lasts(a, c, event) {
      assert Lasts(a, b, event) && Lasts(b, c, event);
    }
  }

  lemma FreshRowsAreUnheld(db: Db, ended: map<string, Outcome>, at: nat, next: Db, event: string)
    requires Ends(db, ended, at, next) && event in next.outbox && event !in db.outbox
    ensures next.outbox[event].claim.None?
  {
    assert event in EventsOf(db.delegations, ended.Keys);
    var id :| id in ended.Keys && id in db.delegations && db.delegations[id].spec.eventId == event;
    assert Announced(db.delegations[id], ended[id], at, next.outbox);
  }

  lemma ReconciledHoldsFade(db: Db, ended: map<string, Outcome>, at: nat, next: Db, ids: set<string>)
    requires Ends(db, ended, at, next)
    ensures HoldsFade(db.outbox, next.outbox, ids)
  {
    forall event ensures NoNewHold(db.outbox, next.outbox, event, ids) {
      if event in next.outbox {
        if event in db.outbox {
          assert Survives(db.outbox, event, next.outbox);
        } else {
          FreshRowsAreUnheld(db, ended, at, next, event);
        }
      }
    }
  }

  lemma StepHoldsFade(db: Db, op: Op, next: Db, ids: set<string>)
    requires Valid(db) && Next(db, op, next) && Foreign(op, ids)
    ensures HoldsFade(db.outbox, next.outbox, ids)
  {
    if Enabled(db, op) {
      TakenHoldsFade(db, op, next, ids);
    } else {
      forall event ensures NoNewHold(db.outbox, next.outbox, event, ids) {}
    }
  }

  lemma TakenHoldsFade(db: Db, op: Op, next: Db, ids: set<string>)
    requires Enabled(db, op) && Takes(db, op, next) && Foreign(op, ids)
    ensures HoldsFade(db.outbox, next.outbox, ids)
  {
    if op.ReconcileExpired? {
      ReconciledHoldsFade(db, ExpiredOutcomes(db, op.now), op.now, next, ids);
    } else if op.ReconcileRunning? {
      ReconciledHoldsFade(db, RunningOutcomes(db, op.reason), op.now, next, ids);
    } else if op.ClaimCompletion? || op.AcknowledgeCompletion? || op.ReleaseCompletion? || op.StartTurn? {
      ConsumerHoldsFade(db, op, next, ids);
    } else {
      OwnerHoldsFade(db, op, next, ids);
    }
  }

  lemma ConsumerHoldsFade(db: Db, op: Op, next: Db, ids: set<string>)
    requires Enabled(db, op) && Takes(db, op, next) && Foreign(op, ids)
    requires op.ClaimCompletion? || op.AcknowledgeCompletion? || op.ReleaseCompletion? || op.StartTurn?
    ensures HoldsFade(db.outbox, next.outbox, ids)
  {
    forall event ensures NoNewHold(db.outbox, next.outbox, event, ids) {}
  }

  lemma OwnerHoldsFade(db: Db, op: Op, next: Db, ids: set<string>)
    requires Enabled(db, op) && Takes(db, op, next)
    requires !op.ClaimCompletion? && !op.AcknowledgeCompletion? && !op.ReleaseCompletion? && !op.StartTurn?
    requires !op.ReconcileExpired? && !op.ReconcileRunning?
    ensures HoldsFade(db.outbox, next.outbox, ids)
  {
    forall event ensures NoNewHold(db.outbox, next.outbox, event, ids) {}
  }

  lemma FadesTransitively(a: Outbox, b: Outbox, c: Outbox, ids: set<string>)
    requires HoldsFade(a, b, ids) && HoldsFade(b, c, ids)
    ensures HoldsFade(a, c, ids)
  {
    forall event ensures NoNewHold(a, c, event, ids) {
      assert NoNewHold(a, b, event, ids) && NoNewHold(b, c, event, ids);
    }
  }

  ghost predicate AllForeign(ops: seq<Op>, ids: set<string>) {
    forall i :: 0 <= i < |ops| ==> Foreign(ops[i], ids)
  }

  ghost predicate Strangers(others: nat -> seq<Op>, ids: set<string>) {
    forall k {:trigger others(k)} :: AllForeign(others(k), ids)
  }

  /** Operations of others neither add to what is held under `ids` nor unmake announcements. */
  lemma {:induction false} ForeignRun(states: seq<Db>, ops: seq<Op>, n: nat, ids: set<string>)
    requires History.Behavior(states, ops) && n <= |ops| && AllForeign(ops, ids)
    ensures HoldsFade(states[0].outbox, states[n].outbox, ids) && Lasting(states[0], states[n])
  {
    if n > 0 {
      ForeignRun(states, ops, n - 1, ids);
      History.AlwaysValid(states, ops, n - 1);
      assert History.StepAt(states, ops, n - 1);
      StepHoldsFade(states[n - 1], ops[n - 1], states[n], ids);
      FadesTransitively(states[0].outbox, states[n - 1].outbox, states[n].outbox, ids);
      StepLasts(states[n - 1], ops[n - 1], states[n]);
      LastsTransitively(states[0], states[n - 1], states[n]);
    }
  }

  /** The others take their turn; none of them uses this gateway's claim ids. */
  method Elsewhere(world: World, ghost ids: set<string>)
    requires world.Valid() && Strangers(world.others, ids)
    modifies world, world.store
    ensures world.Arrived(world.store.Contents()) && Valid(world.store.Contents())
    ensures world.own == old(world.own) && world.Extends(old(world.own), old(world.states))
    ensures HoldsFade(old(world.store.outbox), world.store.outbox, ids)
    ensures Lasting(old(world.store.Contents()), world.store.Contents())
    ensures world.others(|world.own|) == [] ==> world.store.Contents() == old(world.store.Contents())
  {
    ghost var log := world.states;
    world.Arrive();
    ghost var run, ops := world.states[|log| - 1..], world.others(|world.own|);
    ForeignRun(run, ops, |ops|, ids);
  }

  // ---- What the gateway does itself --------------------------------------------------

  /** The gateway's own operations on claims: it presents no claim id but its own. */
  predicate Mine(op: Op, ids: set<string>) {
    || (op.ClaimCompletion? && op.claim in ids)
    || (op.ReleaseCompletion? && op.claim in ids)
    || (op.StartTurn? && forall k :: 0 <= k < |op.claims| ==> op.claims[k].claim in ids)
  }

  predicate MineCall(call: seq<Op>, ids: set<string>) {
    forall i :: 0 <= i < |call| ==> Mine(call[i], ids)
  }

  ghost predicate MineFrom(own: seq<seq<Op>>, n: nat, ids: set<string>) {
    forall i :: n <= i < |own| ==> MineCall(own[i], ids)
  }

  /** A completion held under somebody else's claim is left alone, until that claim lapses. */
  lemma MineSparesOthers(db: Db, op: Op, next: Db, ids: set<string>, event: string)
    requires Valid(db) && Next(db, op, next) && Mine(op, ids)
    requires event in db.outbox && !db.outbox[event].delivered
    requires db.outbox[event].claim.Some? && db.outbox[event].claim.value !in ids
    ensures event in next.outbox
    ensures next.outbox[event] == db.outbox[event]
            || (op.ClaimCompletion? && op.event == event && db.outbox[event].expires.GetOr(op.now + 1) <= op.now)
  {
    if op.StartTurn? && Enabled(db, op) {
      forall k | 0 <= k < |op.claims| ensures Events(op.claims)[k] != event {
        assert Deliverable(db, op.session, op.claims[k], op.at);
      }
      Deliveries.AcceptanceDelivers(db, op, next, event);
    }
  }

  lemma MineAppend(own: seq<seq<Op>>, n: nat, calls: seq<seq<Op>>, ids: set<string>)
    requires n <= |own| && MineFrom(own, n, ids) && MineFrom(calls, 0, ids)
    ensures MineFrom(own + calls, n, ids)
  {
    forall i | n <= i < |own + calls| ensures MineCall((own + calls)[i], ids) {
      if i >= |own| { assert (own + calls)[i] == calls[i - |own|]; }
    }
  }


  // ---- Claiming ----------------------------------------------------------------------

  /** An undelivered completion of a delegation of this session, never claimed or with a claim
      that has lapsed. */
  predicate Available(db: Db, session: string, event: string, now: nat) {
    && event in db.outbox && Progress.ToBeHad(db.outbox[event], now)
    && db.outbox[event].delegationId in db.delegations
    && db.delegations[db.outbox[event].delegationId].spec.parent == session
  }

  /** `available_completions_for`: at most `limit` events, all of them if there is room. */
  method AvailableFor(store: Store, session: string, now: nat, limit: nat) returns (r: Result<seq<string>, StoreError>)
    requires Valid(store.Contents())
    ensures r.Err? <==> limit == 0 || MAX_I64 < now || MAX_I64 < limit
    ensures r.Ok? ==> Listing(store.Contents(), session, now, limit, r.value)
  {
    if limit == 0 || MAX_I64 < now || MAX_I64 < limit { return Err(Invalid); }
    var events: seq<string> := [];
    var left := store.outbox.Keys;
    while left != {} && |events| < limit
      invariant left <= store.outbox.Keys && |events| <= limit && Distinct(events)
      invariant forall event :: event in events <==>
                  event !in left && Available(store.Contents(), session, event, now)
      decreases |left|
    {
      var event :| event in left;
      left := left - {event};
      Progress.DeliveryIsSound(store.Contents(), event);
      if Claimable(store.outbox[event], now) && store.outbox[event].delegationId in store.delegations
         && store.delegations[store.outbox[event].delegationId].spec.parent == session
      {
        events := events + [event];
      }
    }
    return Ok(events);
  }

  /** Every row held under one of our ids is one we still have on our list. */
  ghost predicate Listed(outbox: Outbox, ids: set<string>, list: seq<DeliveryClaim>) {
    forall event {:trigger outbox[event]} | event in outbox ::
      outbox[event].claim.Some? && outbox[event].claim.value in ids ==>
        DeliveryClaim(event, outbox[event].claim.value) in list
  }

  lemma ListedFades(before: Outbox, after: Outbox, ids: set<string>, list: seq<DeliveryClaim>)
    requires Listed(before, ids, list) && HoldsFade(before, after, ids)
    ensures Listed(after, ids, list)
  {
    forall event | event in after
      ensures after[event].claim.Some? && after[event].claim.value in ids ==>
                DeliveryClaim(event, after[event].claim.value) in list
    {
      assert NoNewHold(before, after, event, ids);
    }
  }

  lemma ReleaseUnlists(db: Db, next: Db, ids: set<string>, first: DeliveryClaim, rest: seq<DeliveryClaim>)
    requires Valid(db) && Listed(db.outbox, ids, [first] + rest)
    requires Next(db, Op.ReleaseCompletion(first.event, first.claim), next)
    ensures Listed(next.outbox, ids, rest)
  {
    forall event | event in next.outbox
      ensures next.outbox[event].claim.Some? && next.outbox[event].claim.value in ids ==>
                DeliveryClaim(event, next.outbox[event].claim.value) in rest
    {
      var held := next.outbox[event].claim;
      if held.Some? && held.value in ids {
        assert event in db.outbox && db.outbox[event].claim == held;
        assert DeliveryClaim(event, held.value) in [first] + rest;
        assert Announces(db.delegations, event, db.outbox[event]);
        assert DeliveryClaim(event, held.value) == first ==> HeldBy(db.outbox[event], first.claim);
      }
    }
  }

  function ReleaseOp(held: DeliveryClaim): Op {
    Op.ReleaseCompletion(held.event, held.claim)
  }

  function ReleaseCalls(list: seq<DeliveryClaim>): (calls: seq<seq<Op>>)
    ensures |calls| == |list|
  {
    seq(|list|, i requires 0 <= i < |list| => [ReleaseOp(list[i])])
  }

  ghost predicate AllUnder(list: seq<DeliveryClaim>, ids: set<string>) {
    forall i :: 0 <= i < |list| ==> list[i].claim in ids
  }

  lemma ReleasesAreMine(list: seq<DeliveryClaim>, ids: set<string>)
    requires AllUnder(list, ids)
    ensures MineFrom(ReleaseCalls(list), 0, ids)
  {
  }

  method ReleaseOne(world: World, held: DeliveryClaim, ghost rest: seq<DeliveryClaim>, ghost ids: set<string>)
    requires world.Valid() && Strangers(world.others, ids)
    requires Listed(world.store.outbox, ids, [held] + rest)
    modifies world, world.store
    ensures world.Valid() && world.Extends(old(world.own), old(world.states))
    ensures world.own == old(world.own) + [[ReleaseOp(held)]]
    ensures Listed(world.store.outbox, ids, rest) && Lasting(old(world.store.Contents()), world.store.Contents())
  {
    ghost var before := world.store.Contents();
    Elsewhere(world, ids);
    ListedFades(before.outbox, world.store.outbox, ids, [held] + rest);
    ghost var seen := world.store.Contents();
    var _ := world.store.ReleaseCompletion(held.event, held.claim);
    world.Did(seen, ReleaseOp(held));
    ReleaseUnlists(seen, world.store.Contents(), ids, held, rest);
    StepLasts(seen, ReleaseOp(held), world.store.Contents());
    LastsTransitively(before, seen, world.store.Contents());
  }

  /** `release_delivery_claims`: one release per claim, after which nothing is held under our ids. */
  method ReleaseDeliveryClaims(world: World, list: seq<DeliveryClaim>, ghost ids: set<string>)
    requires world.Valid() && Strangers(world.others, ids)
    requires Listed(world.store.outbox, ids, list)
    modifies world, world.store
    ensures world.Valid() && world.Extends(old(world.own), old(world.states))
    ensures world.own == old(world.own) + ReleaseCalls(list)
    ensures Listed(world.store.outbox, ids, []) && Lasting(old(world.store.Contents()), world.store.Contents())
  {
    ghost var own, states, start := world.own, world.states, world.store.Contents();
    world.SoundNow();
    LastsReflexively(start);
    for i := 0 to |list|
      invariant world.Valid() && world.Extends(own, states) && Listed(world.store.outbox, ids, list[i..])
      invariant Lasting(start, world.store.Contents())
      invariant world.own == own + ReleaseCalls(list)[..i]
    {
      assert list[i..] == [list[i]] + list[i + 1..];
      ghost var before := world.store.Contents();
      ReleaseOne(world, list[i], list[i + 1..], ids);
      LastsTransitively(start, before, world.store.Contents());
      assert ReleaseCalls(list)[..i + 1] == ReleaseCalls(list)[..i] + [[ReleaseOp(list[i])]];
    }
    assert list[|list|..] == [] && ReleaseCalls(list)[..|list|] == ReleaseCalls(list);
  }

  lemma ClaimLists(db: Db, op: Op, next: Db, ids: set<string>, list: seq<DeliveryClaim>)
    requires op.ClaimCompletion? && Next(db, op, next) && Listed(db.outbox, ids, list)
    ensures Enabled(db, op) ==> Listed(next.outbox, ids, list + [DeliveryClaim(op.event, op.claim)])
    ensures !Enabled(db, op) ==> Listed(next.outbox, ids, list)
  {
    if Enabled(db, op) {
      var more := list + [DeliveryClaim(op.event, op.claim)];
      assert DeliveryClaim(op.event, op.claim) in more;
      forall event | event in next.outbox
        ensures next.outbox[event].claim.Some? && next.outbox[event].claim.value in ids ==>
                  DeliveryClaim(event, next.outbox[event].claim.value) in more
      {
        if event != op.event { assert next.outbox[event] == db.outbox[event]; }
      }
    }
  }

  /** The completion and its owner are still there, and the owner still answers to `session`. */
  predicate Belongs(db: Db, session: string, held: DeliveryClaim) {
    held.event in db.outbox && Owns(db, session, db.outbox[held.event].delegationId)
  }

  ghost predicate AllBelong(db: Db, session: string, list: seq<DeliveryClaim>) {
    forall i :: 0 <= i < |list| ==> Belongs(db, session, list[i])
  }

  lemma BelongingLasts(before: Db, after: Db, session: string, list: seq<DeliveryClaim>)
    requires AllBelong(before, session, list) && Lasting(before, after)
    ensures AllBelong(after, session, list)
  {
    forall i | 0 <= i < |list| ensures Belongs(after, session, list[i]) {
      assert Belongs(before, session, list[i]);
      assert Lasts(before, after, list[i].event);
    }
  }

  /** `shown` is what the completions under these claims announce. */
  ghost predicate Shows(outbox: Outbox, list: seq<DeliveryClaim>, shown: seq<Completion>) {
    |shown| == |list| && forall i :: 0 <= i < |list| ==> list[i].event in outbox && outbox[list[i].event].payload == shown[i]
  }

  lemma ShowsMore(outbox: Outbox, list: seq<DeliveryClaim>, shown: seq<Completion>, held: DeliveryClaim, completion: Completion)
    requires Shows(outbox, list, shown) && held.event in outbox && outbox[held.event].payload == completion
    ensures Shows(outbox, list + [held], shown + [completion])
  {
  }

  lemma ShowingLasts(before: Db, after: Db, list: seq<DeliveryClaim>, shown: seq<Completion>)
    requires Shows(before.outbox, list, shown) && Lasting(before, after)
    ensures Shows(after.outbox, list, shown)
  {
    forall i | 0 <= i < |list| ensures list[i].event in after.outbox && after.outbox[list[i].event].payload == shown[i] {
      assert Lasts(before, after, list[i].event);
    }
  }

  /** The events from `i` on are still there for the taking. */
  ghost predicate StillAvailable(db: Db, session: string, events: seq<string>, i: nat, now: nat) {
    forall k :: i <= k < |events| ==> Available(db, session, events[k], now)
  }

  lemma ClaimLeavesOthers(db: Db, op: Op, next: Db, session: string, events: seq<string>, i: nat, now: nat)
    requires op.ClaimCompletion? && Next(db, op, next) && Distinct(events) && i < |events| && op.event == events[i]
    requires StillAvailable(db, session, events, i, now)
    ensures StillAvailable(next, session, events, i + 1, now)
  {
  }

  function ClaimOp(event: string, claim: string, now: nat): Op {
    Op.ClaimCompletion(event, claim, now, SaturatingAdd(now, DELIVERY_CLAIM_DURATION_MS))
  }

  function Ids(drawn: seq<Option<string>>): set<string> {
    set i | 0 <= i < |drawn| && drawn[i].Some? :: drawn[i].value
  }

  /** How many of the first `n` draws of a claim id succeed before one fails. */
  function Leading(drawn: seq<Option<string>>, n: nat): (k: nat)
    requires n <= |drawn|
    ensures k <= n && (forall i :: 0 <= i < k ==> drawn[i].Some?) && (k < n ==> drawn[k].None?)
  {
    if n == 0 then 0
    else
      var k := Leading(drawn, n - 1);
      if k < n - 1 || drawn[n - 1].None? then k else n
  }

  predicate TimeFits(now: nat) {
    now + DELIVERY_CLAIM_DURATION_MS <= MAX_I64
  }

  /** How many of the listed events are tried: all, or up to the first failed draw, or the one
      whose deadline turns out not to fit. */
  function Tried(listed: seq<string>, drawn: seq<Option<string>>, now: nat): (n: nat)
    requires |listed| <= |drawn|
    ensures n <= Leading(drawn, |listed|)
  {
    var n := Leading(drawn, |listed|);
    if TimeFits(now) || n == 0 then n else 1
  }

  predicate AllTried(listed: seq<string>, drawn: seq<Option<string>>, now: nat)
    requires |listed| <= |drawn|
  {
    Leading(drawn, |listed|) == |listed| && (TimeFits(now) || listed == [])
  }

  /** The claims made on the first `i` listed events. */
  function ClaimCalls(listed: seq<string>, drawn: seq<Option<string>>, now: nat, i: nat): (calls: seq<seq<Op>>)
    requires i <= |listed| <= |drawn|
    ensures |calls| == i
  {
    if i == 0 then [] else ClaimCalls(listed, drawn, now, i - 1) + [[ClaimOp(listed[i - 1], drawn[i - 1].GetOr(""), now)]]
  }

  /** The completion is there to be had, and the deadline of a claim on it fits. */
  predicate Takeable(db: Db, event: string, now: nat) {
    TimeFits(now) && event in db.outbox && Progress.ToBeHad(db.outbox[event], now)
  }

  lemma TakeableMeans(db: Db, event: string, claim: string, now: nat)
    requires Valid(db)
    ensures Enabled(db, ClaimOp(event, claim, now)) <==> Takeable(db, event, now)
  {
    if event in db.outbox { Progress.DeliveryIsSound(db, event); }
  }

  /** The claim, if `seen` still has the event to be had. */
  function Win(seen: Db, event: string, claim: string, now: nat): (claims: seq<DeliveryClaim>)
    ensures |claims| <= 1
  {
    if Takeable(seen, event, now) then [DeliveryClaim(event, claim)] else []
  }

  /** The claims among the first `i`, made from call `n` on, that found their completion still to be had. */
  function Won(others: nat -> seq<Op>, own: seq<seq<Op>>, states: seq<Db>, n: nat, listed: seq<string>, drawn: seq<Option<string>>,
               now: nat, i: nat): (claims: seq<DeliveryClaim>)
    requires i <= |listed| <= |drawn|
    ensures |claims| <= i
  {
    if i == 0 then []
    else Won(others, own, states, n, listed, drawn, now, i - 1)
         + Win(SeenIn(others, own, states, n + i - 1), listed[i - 1], drawn[i - 1].GetOr(""), now)
  }

  /** What was won is not affected by later calls. */
  lemma WonStays(others: nat -> seq<Op>, own: seq<seq<Op>>, states: seq<Db>, own': seq<seq<Op>>, states': seq<Db>,
                 n: nat, listed: seq<string>, drawn: seq<Option<string>>, now: nat, i: nat)
    requires own <= own' && states <= states' && |Run(others, own)| < |states| && n + i <= |own| && i <= |listed| <= |drawn|
    ensures Won(others, own', states', n, listed, drawn, now, i) == Won(others, own, states, n, listed, drawn, now, i)
  {
    forall k | 0 <= k < i ensures SameWin(others, own, states, own', states', n, listed, drawn, now, k) {
      WinStays(others, own, states, own', states', n + k, listed[k], drawn[k].GetOr(""), now);
    }
    WonAlike(others, own, states, own', states', n, listed, drawn, now, i);
  }

  predicate SameWin(others: nat -> seq<Op>, own: seq<seq<Op>>, states: seq<Db>, own': seq<seq<Op>>, states': seq<Db>,
                    n: nat, listed: seq<string>, drawn: seq<Option<string>>, now: nat, k: nat)
    requires k < |listed| <= |drawn|
  {
    Win(SeenIn(others, own', states', n + k), listed[k], drawn[k].GetOr(""), now)
    == Win(SeenIn(others, own, states, n + k), listed[k], drawn[k].GetOr(""), now)
  }

  lemma {:induction false} WonAlike(others: nat -> seq<Op>, own: seq<seq<Op>>, states: seq<Db>, own': seq<seq<Op>>, states': seq<Db>,
                                    n: nat, listed: seq<string>, drawn: seq<Option<string>>, now: nat, i: nat)
    requires i <= |listed| <= |drawn|
    requires forall k :: 0 <= k < i ==> SameWin(others, own, states, own', states', n, listed, drawn, now, k)
    ensures Won(others, own', states', n, listed, drawn, now, i) == Won(others, own, states, n, listed, drawn, now, i)
  {
    if i > 0 {
      WonAlike(others, own, states, own', states', n, listed, drawn, now, i - 1);
      assert SameWin(others, own, states, own', states', n, listed, drawn, now, i - 1);
    }
  }

  lemma WinStays(others: nat -> seq<Op>, own: seq<seq<Op>>, states: seq<Db>, own': seq<seq<Op>>, states': seq<Db>, k: nat,
                 event: string, claim: string, now: nat)
    requires own <= own' && states <= states' && |Run(others, own)| < |states| && k < |own|
    ensures Win(SeenIn(others, own', states', k), event, claim, now) == Win(SeenIn(others, own, states, k), event, claim, now)
  {
    SeenStays(others, own, states, own', states', k);
  }

  /** One claim, after whatever others did. */
  method TakeOne(world: World, session: string, event: string, claim: string, now: nat, ghost list: seq<DeliveryClaim>,
                 ghost ids: set<string>)
    returns (r: Result<Option<Completion>, StoreError>)
    requires world.Valid() && Strangers(world.others, ids)
    requires Listed(world.store.outbox, ids, list) && AllBelong(world.store.Contents(), session, list)
    modifies world, world.store
    ensures world.Valid() && world.Extends(old(world.own), old(world.states))
    ensures world.own == old(world.own) + [[ClaimOp(event, claim, now)]]
    ensures r.Ok? <==> TimeFits(now)
    ensures r.Ok? && r.value.Some? <==> Takeable(world.Seen(|old(world.own)|), event, now)
    ensures r.Ok? && r.value.Some? ==> event in world.store.outbox && world.store.outbox[event].payload == r.value.value
    ensures Lasting(old(world.store.Contents()), world.store.Contents())
    ensures AllBelong(world.store.Contents(), session, list)
    ensures Listed(world.store.outbox, ids, if r.Ok? && r.value.Some? then list + [DeliveryClaim(event, claim)] else list)
    ensures world.others(|old(world.own)|) == [] ==>
              Next(old(world.store.Contents()), ClaimOp(event, claim, now), world.store.Contents())
              && world.Seen(|old(world.own)|) == old(world.store.Contents())
  {
    ghost var before := world.store.Contents();
    Elsewhere(world, ids);
    ghost var mid := world.store.Contents();
    ListedFades(before.outbox, mid.outbox, ids, list);
    r := world.store.ClaimCompletion(event, claim, now, SaturatingAdd(now, DELIVERY_CLAIM_DURATION_MS));
    ghost var op := ClaimOp(event, claim, now);
    TakeableMeans(mid, event, claim, now);
    world.Did(mid, op);
    ClaimLists(mid, op, world.store.Contents(), ids, list);
    StepLasts(mid, op, world.store.Contents());
    LastsTransitively(before, mid, world.store.Contents());
    BelongingLasts(before, world.store.Contents(), session, list);
  }

  /** The claims gathered from the first `i` available events: distinct, and the session's own. */
  ghost predicate Gathered(start: Db, db: Db, session: string, available: seq<string>, i: nat, claimed: seq<DeliveryClaim>)
    requires i <= |available|
  {
    && Lasting(start, db)
    && |claimed| <= i
    && Distinct(Events(claimed)) && (forall event :: event in Events(claimed) ==> event in available[..i])
    && AllBelong(db, session, claimed)
  }

  lemma GatheredOneMore(start: Db, before: Db, db: Db, session: string, available: seq<string>, i: nat,
                        claimed: seq<DeliveryClaim>, claim: string, now: nat)
    requires i < |available| && Distinct(available) && Available(start, session, available[i], now)
    requires Gathered(start, before, session, available, i, claimed)
    requires Lasting(before, db) && AllBelong(db, session, claimed)
    ensures Gathered(start, db, session, available, i + 1, claimed)
    ensures Gathered(start, db, session, available, i + 1, claimed + [DeliveryClaim(available[i], claim)])
    ensures Events(claimed + [DeliveryClaim(available[i], claim)]) == Events(claimed) + [available[i]]
  {
    LastsTransitively(start, before, db);
    assert Lasts(start, db, available[i]);
    assert available[..i + 1] == available[..i] + [available[i]];
    assert Events(claimed + [DeliveryClaim(available[i], claim)]) == Events(claimed) + [available[i]];
    assert available[i] !in available[..i];
  }

  /** Claims on the first `i` listed events, made from call `n` on, one call for each. */
  ghost predicate Claiming(others: nat -> seq<Op>, before: seq<seq<Op>>, own: seq<seq<Op>>, states: seq<Db>,
                           listed: seq<string>, drawn: seq<Option<string>>, now: nat, i: nat, claimed: seq<DeliveryClaim>)
    requires i <= |listed| <= |drawn|
  {
    && own == before + ClaimCalls(listed, drawn, now, i)
    && claimed == Won(others, own, states, |before|, listed, drawn, now, i)
  }

  lemma ClaimingOn(others: nat -> seq<Op>, before: seq<seq<Op>>, own: seq<seq<Op>>, states: seq<Db>, own': seq<seq<Op>>, states': seq<Db>,
                   listed: seq<string>, drawn: seq<Option<string>>, now: nat, i: nat, claimed: seq<DeliveryClaim>)
    requires i < |listed| <= |drawn| && Claiming(others, before, own, states, listed, drawn, now, i, claimed)
    requires states <= states' && |Run(others, own)| < |states|
    requires own' == own + [[ClaimOp(listed[i], drawn[i].GetOr(""), now)]]
    ensures Claiming(others, before, own', states', listed, drawn, now, i + 1,
                     claimed + Win(SeenIn(others, own', states', |own|), listed[i], drawn[i].GetOr(""), now))
  {
    CallsOnward(before, own, own', listed, drawn, now, i);
    WonStays(others, own, states, own', states', |before|, listed, drawn, now, i);
  }

  lemma CallsOnward(before: seq<seq<Op>>, own: seq<seq<Op>>, own': seq<seq<Op>>, listed: seq<string>, drawn: seq<Option<string>>,
                    now: nat, i: nat)
    requires i < |listed| <= |drawn| && own == before + ClaimCalls(listed, drawn, now, i)
    requires own' == own + [[ClaimOp(listed[i], drawn[i].GetOr(""), now)]]
    ensures own' == before + ClaimCalls(listed, drawn, now, i + 1) && |own| == |before| + i && own <= own'
  {
  }

  /** Nobody else acts before any call from `n` on. */
  ghost predicate AloneFrom(others: nat -> seq<Op>, n: nat) {
    forall k {:trigger others(k)} :: n <= k ==> others(k) == []
  }

  /** The claims the gateway holds after `i` of the listed events, and what of the list is left. */
  ghost predicate Holding(start: Db, db: Db, session: string, ids: set<string>, listed: seq<string>, now: nat, i: nat,
                          claimed: seq<DeliveryClaim>, alone: bool)
    requires i <= |listed|
  {
    && Listed(db.outbox, ids, claimed)
    && Gathered(start, db, session, listed, i, claimed)
    && (alone ==> Events(claimed) == listed[..i] && StillAvailable(db, session, listed, i, now))
  }

  lemma HoldingOn(start: Db, before: Db, db: Db, session: string, ids: set<string>, listed: seq<string>, now: nat, i: nat,
                  claimed: seq<DeliveryClaim>, alone: bool, claim: string, won: bool)
    requires i < |listed| && Distinct(listed) && StillAvailable(start, session, listed, 0, now)
    requires Holding(start, before, session, ids, listed, now, i, claimed, alone)
    requires Lasting(before, db) && AllBelong(db, session, claimed)
    requires Listed(db.outbox, ids, if won then claimed + [DeliveryClaim(listed[i], claim)] else claimed)
    requires alone ==> Next(before, ClaimOp(listed[i], claim, now), db) && (won <==> Takeable(before, listed[i], now))
    requires TimeFits(now)
    ensures Holding(start, db, session, ids, listed, now, i + 1, if won then claimed + [DeliveryClaim(listed[i], claim)] else claimed, alone)
  {
    assert Available(start, session, listed[i], now);
    GatheredOneMore(start, before, db, session, listed, i, claimed, claim, now);
    if alone {
      assert Available(before, session, listed[i], now);
      ClaimLeavesOthers(before, ClaimOp(listed[i], claim, now), db, session, listed, i, now);
      assert listed[..i + 1] == listed[..i] + [listed[i]];
    }
  }

  lemma HoldingNothing(db: Db, session: string, ids: set<string>, listed: seq<string>, now: nat, alone: bool)
    requires Listed(db.outbox, ids, []) && StillAvailable(db, session, listed, 0, now)
    ensures Holding(db, db, session, ids, listed, now, 0, [], alone)
  {
    LastsReflexively(db);
    assert Events([]) == [];
  }

  /** The claim on listed event `i`. */
  method TakeNext(world: World, ghost start: Db, session: string, now: nat, drawn: seq<Option<string>>, listed: seq<string>, i: nat,
                  claimed: seq<DeliveryClaim>, shown: seq<Completion>, ghost before: seq<seq<Op>>, ghost alone: bool)
    returns (claimed': seq<DeliveryClaim>, shown': seq<Completion>, ok: bool)
    requires world.Valid() && Strangers(world.others, Ids(drawn)) && i < |listed| <= |drawn| && drawn[i].Some?
    requires Distinct(listed) && StillAvailable(start, session, listed, 0, now)
    requires Claiming(world.others, before, world.own, world.states, listed, drawn, now, i, claimed)
    requires Holding(start, world.store.Contents(), session, Ids(drawn), listed, now, i, claimed, alone)
    requires Shows(world.store.outbox, claimed, shown) && (alone ==> world.others(|world.own|) == [])
    modifies world, world.store
    ensures world.Valid() && world.Extends(old(world.own), old(world.states))
    ensures Claiming(world.others, before, world.own, world.states, listed, drawn, now, i + 1, claimed')
    ensures ok <==> TimeFits(now)
    ensures ok ==> Holding(start, world.store.Contents(), session, Ids(drawn), listed, now, i + 1, claimed', alone)
    ensures !ok ==> claimed' == claimed && Listed(world.store.outbox, Ids(drawn), claimed)
                    && AllBelong(world.store.Contents(), session, claimed)
    ensures Shows(world.store.outbox, claimed', shown')
  {
    ghost var own, states, db := world.own, world.states, world.store.Contents();
    var claim := drawn[i].value;
    var taken := TakeOne(world, session, listed[i], claim, now, claimed, Ids(drawn));
    ClaimingOn(world.others, before, own, states, world.own, world.states, listed, drawn, now, i, claimed);
    ShowingLasts(db, world.store.Contents(), claimed, shown);
    ok, claimed', shown' := taken.Ok?, claimed, shown;
    assert claimed + [] == claimed;
    if ok {
      if taken.value.Some? {
        ShowsMore(world.store.outbox, claimed, shown, DeliveryClaim(listed[i], claim), taken.value.value);
        claimed', shown' := claimed + [DeliveryClaim(listed[i], claim)], shown + [taken.value.value];
      }
      HoldingOn(start, db, world.store.Contents(), session, Ids(drawn), listed, now, i, claimed, alone, claim, taken.value.Some?);
    }
  }

  /** Claims on what was listed, one event at a time, until a draw or a claim fails. */
  method TakeListed(world: World, session: string, now: nat, drawn: seq<Option<string>>, listed: seq<string>)
    returns (claimed: seq<DeliveryClaim>, shown: seq<Completion>, ok: bool)
    requires world.Valid() && Strangers(world.others, Ids(drawn)) && |listed| <= |drawn|
    requires Listed(world.store.outbox, Ids(drawn), []) && Distinct(listed)
    requires StillAvailable(world.store.Contents(), session, listed, 0, now)
    modifies world, world.store
    ensures world.Valid() && world.Extends(old(world.own), old(world.states))
    ensures Claiming(world.others, old(world.own), world.own, world.states, listed, drawn, now, Tried(listed, drawn, now), claimed)
    ensures ok <==> AllTried(listed, drawn, now)
    ensures Listed(world.store.outbox, Ids(drawn), claimed) && Shows(world.store.outbox, claimed, shown)
    ensures Distinct(Events(claimed)) && AllBelong(world.store.Contents(), session, claimed)
    ensures ok && AloneFrom(world.others, |old(world.own)|) ==> Events(claimed) == listed
  {
    ghost var own, states, start := world.own, world.states, world.store.Contents();
    ghost var alone := AloneFrom(world.others, |own|);
    claimed, shown := [], [];
    HoldingNothing(start, session, Ids(drawn), listed, now, alone);
    for i := 0 to |listed|
      invariant world.Valid() && world.Extends(own, states) && i <= Leading(drawn, |listed|) && (i > 0 ==> TimeFits(now))
      invariant Claiming(world.others, own, world.own, world.states, listed, drawn, now, i, claimed)
      invariant Holding(start, world.store.Contents(), session, Ids(drawn), listed, now, i, claimed, alone)
      invariant Shows(world.store.outbox, claimed, shown)
    {
      if drawn[i].None? { return claimed, shown, false; }
      claimed, shown, ok := TakeNext(world, start, session, now, drawn, listed, i, claimed, shown, own, alone);
      if !ok { return; }
    }
    assert listed[..|listed|] == listed;
    ok := true;
  }

  /** What the listing of available completions may return. */
  ghost predicate Listing(db: Db, session: string, now: nat, limit: nat, listed: seq<string>) {
    && |listed| <= limit && Distinct(listed)
    && (forall event :: event in listed ==> Available(db, session, event, now))
    && (|listed| < limit ==> forall event :: Available(db, session, event, now) ==> event in listed)
  }

  /** The run of claiming what was listed, after the calls `before`: all of it, or given back. */
  ghost predicate ListedClaims(others: nat -> seq<Op>, before: seq<seq<Op>>, own: seq<seq<Op>>, states: seq<Db>,
                               now: nat, drawn: seq<Option<string>>, listed: seq<string>,
                               r: Result<seq<DeliveryClaim>, StoreError>)
    requires |listed| <= |drawn|
  {
    var tried := Tried(listed, drawn, now);
    var calls := before + ClaimCalls(listed, drawn, now, tried);
    var won := Won(others, own, states, |before|, listed, drawn, now, tried);
    if AllTried(listed, drawn, now) then own == calls && r == Ok(won)
    else own == calls + ReleaseCalls(won) && r.Err?
  }

  /** The run of `claim_parent_completions` after the calls `before`. */
  ghost predicate ParentClaims(others: nat -> seq<Op>, before: seq<seq<Op>>, own: seq<seq<Op>>, states: seq<Db>,
                               session: string, now: nat, drawn: seq<Option<string>>, listed: seq<string>,
                               r: Result<seq<DeliveryClaim>, StoreError>)
    requires |listed| <= |drawn|
  {
    if MAX_I64 < now then own == before + [[]] && r.Err?
    else
      && Listing(SeenIn(others, own, states, |before|), session, now, COMPLETION_DELIVERY_LIMIT, listed)
      && ListedClaims(others, before + [[]], own, states, now, drawn, listed, r)
  }

  method ListAvailable(world: World, session: string, now: nat, ghost ids: set<string>) returns (r: Result<seq<string>, StoreError>)
    requires world.Valid() && Strangers(world.others, ids) && Listed(world.store.outbox, ids, [])
    modifies world, world.store
    ensures world.Valid() && world.Extends(old(world.own), old(world.states)) && Listed(world.store.outbox, ids, [])
    ensures world.own == old(world.own) + [[]] && world.Seen(|old(world.own)|) == world.store.Contents()
    ensures world.others(|old(world.own)|) == [] ==> world.store.Contents() == old(world.store.Contents())
    ensures r.Ok? <==> now <= MAX_I64
    ensures r.Ok? ==> Listing(world.store.Contents(), session, now, COMPLETION_DELIVERY_LIMIT, r.value)
  {
    ghost var outbox := world.store.outbox;
    Elsewhere(world, ids);
    ListedFades(outbox, world.store.outbox, ids, []);
    r := AvailableFor(world.store, session, now, COMPLETION_DELIVERY_LIMIT);
    world.Looked();
  }

  method ClaimListed(world: World, session: string, now: nat, drawn: seq<Option<string>>, listed: seq<string>)
    returns (r: Result<seq<DeliveryClaim>, StoreError>, shown: seq<Completion>)
    requires world.Valid() && Strangers(world.others, Ids(drawn)) && |listed| <= |drawn|
    requires Listed(world.store.outbox, Ids(drawn), [])
    requires Distinct(listed) && StillAvailable(world.store.Contents(), session, listed, 0, now)
    modifies world, world.store
    ensures world.Valid() && world.Extends(old(world.own), old(world.states))
    ensures ListedClaims(world.others, old(world.own), world.own, world.states, now, drawn, listed, r)
    ensures Listed(world.store.outbox, Ids(drawn), if r.Ok? then r.value else [])
    ensures r.Ok? ==> Distinct(Events(r.value)) && AllBelong(world.store.Contents(), session, r.value)
                      && Shows(world.store.outbox, r.value, shown)
    ensures r.Ok? && AloneFrom(world.others, |old(world.own)|) ==> Events(r.value) == listed
  {
    ghost var before := world.own;
    var claimed, ok;
    claimed, shown, ok := TakeListed(world, session, now, drawn, listed);
    if ok { return Ok(claimed), shown; }
    ghost var own, states := world.own, world.states;
    ReleaseDeliveryClaims(world, claimed, Ids(drawn));
    WonStays(world.others, own, states, world.own, world.states, |before|, listed, drawn, now, Tried(listed, drawn, now));
    return Err(Invalid), [];
  }

  /** `claim_parent_completions`: takes claims on what is available to `session`, skipping what
      others grab first. On failure it gives back everything it took. */
  method ClaimParentCompletions(world: World, session: string, now: nat, drawn: seq<Option<string>>)
    returns (r: Result<seq<DeliveryClaim>, StoreError>, shown: seq<Completion>, ghost listed: seq<string>)
    requires world.Valid() && Strangers(world.others, Ids(drawn)) && COMPLETION_DELIVERY_LIMIT <= |drawn|
    requires Listed(world.store.outbox, Ids(drawn), [])
    modifies world, world.store
    ensures world.Valid() && world.Extends(old(world.own), old(world.states)) && |listed| <= |drawn|
    ensures ParentClaims(world.others, old(world.own), world.own, world.states, session, now, drawn, listed, r)
    ensures Listed(world.store.outbox, Ids(drawn), if r.Ok? then r.value else [])
    ensures r.Ok? ==> Distinct(Events(r.value)) && AllBelong(world.store.Contents(), session, r.value)
                      && Shows(world.store.outbox, r.value, shown)
    ensures r.Ok? && AloneFrom(world.others, |old(world.own)|) ==>
              Listing(old(world.store.Contents()), session, now, COMPLETION_DELIVERY_LIMIT, Events(r.value))
  {
    listed, shown := [], [];
    ghost var before := world.own;
    var available := ListAvailable(world, session, now, Ids(drawn));
    if available.Err? { return Err(available.error), shown, listed; }
    listed := available.value;
    ghost var own, states := world.own, world.states;
    r, shown := ClaimListed(world, session, now, drawn, available.value);
    world.Kept(own, states, |before|);
  }

  // ---- Accepting a prompt ------------------------------------------------------------

  lemma InEvents(claims: seq<DeliveryClaim>, held: DeliveryClaim)
    requires held in claims
    ensures held.event in Events(claims)
  {
    var k :| 0 <= k < |claims| && claims[k] == held;
    assert Events(claims)[k] == held.event;
  }

  lemma AcceptanceUnlists(db: Db, op: Op, next: Db, ids: set<string>)
    requires Valid(db) && op.StartTurn? && Enabled(db, op) && Next(db, op, next)
    requires Listed(db.outbox, ids, op.claims)
    ensures Listed(next.outbox, ids, [])
    ensures forall i :: 0 <= i < |op.claims| ==>
              op.claims[i].event in next.outbox && next.outbox[op.claims[i].event].delivered
  {
    forall event | event in next.outbox
      ensures !(next.outbox[event].claim.Some? && next.outbox[event].claim.value in ids)
    {
      Deliveries.AcceptanceDelivers(db, op, next, event);
      if event !in Events(op.claims) && db.outbox[event].claim.Some? && db.outbox[event].claim.value in ids {
        InEvents(op.claims, DeliveryClaim(event, db.outbox[event].claim.value));
      }
    }
    forall i | 0 <= i < |op.claims|
      ensures op.claims[i].event in next.outbox && next.outbox[op.claims[i].event].delivered
    {
      assert Deliverable(db, op.session, op.claims[i], op.at);
      assert Events(op.claims)[i] in Events(op.claims);
    }
  }

  /** What the provider is told: the bare text, or the text rendered with the completions that
      were claimed for it, if they can be rendered. */
  function ProviderPrompt(render: (string, seq<Completion>) -> Option<string>, text: string, shown: seq<Completion>): Option<string> {
    if shown == [] then Some(text) else render(text, shown)
  }

  /** The run of the acceptance part of `submit` after the calls `before`. `calls` are those up
      to the claims, `claimed` what came of them. */
  ghost predicate Submitted(others: nat -> seq<Op>, before: seq<seq<Op>>, own: seq<seq<Op>>, states: seq<Db>,
                            session: string, turn: string, text: string, prompt: Option<string>, now: nat,
                            drawn: seq<Option<string>>, listed: seq<string>, calls: seq<seq<Op>>,
                            claimed: Result<seq<DeliveryClaim>, StoreError>, r: Result<seq<DeliveryClaim>, StoreError>)
    requires |listed| <= |drawn|
  {
    var sessions := SeenIn(others, own, states, |before|).sessions;
    if Blank(text) then own == before && r.Err?
    else if session !in sessions then own == before + [[]] && r == Err(NotFound(session))
    else ClaimedAndOffered(others, before + [[]], own, states, session, turn, text, prompt, sessions[session].generation, now,
                           drawn, listed, calls, claimed, r)
  }

  ghost predicate ClaimedAndOffered(others: nat -> seq<Op>, before: seq<seq<Op>>, own: seq<seq<Op>>, states: seq<Db>,
                                    session: string, turn: string, text: string, prompt: Option<string>, generation: nat,
                                    now: nat, drawn: seq<Option<string>>, listed: seq<string>, calls: seq<seq<Op>>,
                                    claimed: Result<seq<DeliveryClaim>, StoreError>, r: Result<seq<DeliveryClaim>, StoreError>)
    requires |listed| <= |drawn|
  {
    && ParentClaims(others, before, calls, states, session, now, drawn, listed, claimed)
    && match claimed
       case Err(_) => own == calls && r.Err?
       case Ok(claims) => Offered(others, calls, own, states, turn, session, text, prompt, generation, claims, now, r)
  }

  /** The prompt with its claims, offered to the store unless it could not be rendered. */
  ghost predicate Offered(others: nat -> seq<Op>, calls: seq<seq<Op>>, own: seq<seq<Op>>, states: seq<Db>, turn: string,
                          session: string, text: string, prompt: Option<string>, generation: nat,
                          claims: seq<DeliveryClaim>, now: nat, r: Result<seq<DeliveryClaim>, StoreError>)
  {
    if prompt.None? then own == calls + ReleaseCalls(claims) && r.Err?
    else
      var op := Op.StartTurn(turn, session, text, prompt.value, generation, claims, now);
      if Enabled(SeenIn(others, own, states, |calls|), op) then own == calls + [[op]] && r == Ok(claims)
      else own == calls + [[op]] + ReleaseCalls(claims) && r.Err?
  }

  lemma ListedClaimsLater(others: nat -> seq<Op>, before: seq<seq<Op>>, own: seq<seq<Op>>, states: seq<Db>, states': seq<Db>,
                          now: nat, drawn: seq<Option<string>>, listed: seq<string>, r: Result<seq<DeliveryClaim>, StoreError>)
    requires states <= states' && |Run(others, own)| < |states| && |listed| <= |drawn|
    requires ListedClaims(others, before, own, states, now, drawn, listed, r)
    ensures ListedClaims(others, before, own, states', now, drawn, listed, r)
  {
    WonStays(others, own, states, own, states', |before|, listed, drawn, now, Tried(listed, drawn, now));
  }

  lemma ParentClaimsLater(others: nat -> seq<Op>, before: seq<seq<Op>>, own: seq<seq<Op>>, states: seq<Db>, states': seq<Db>,
                          session: string, now: nat, drawn: seq<Option<string>>, listed: seq<string>,
                          r: Result<seq<DeliveryClaim>, StoreError>)
    requires states <= states' && |Run(others, own)| < |states| && |listed| <= |drawn|
    requires ParentClaims(others, before, own, states, session, now, drawn, listed, r)
    ensures ParentClaims(others, before, own, states', session, now, drawn, listed, r)
  {
    if now <= MAX_I64 {
      SeenStays(others, own, states, own, states', |before|);
      ListedClaimsLater(others, before + [[]], own, states, states', now, drawn, listed, r);
    }
  }

  /** What an accepted prompt leaves behind. */
  ghost predicate AcceptedPrompt(db: Db, turn: string, session: string, text: string, prompt: string, claims: seq<DeliveryClaim>) {
    && turn in db.turns && db.turns[turn].session == session
    && db.turns[turn].status.IsActive? && db.turns[turn].prompt == text && db.turns[turn].providerPrompt == prompt
    && Distinct(Events(claims)) && AllBelong(db, session, claims)
    && forall i :: 0 <= i < |claims| ==> claims[i].event in db.outbox && db.outbox[claims[i].event].delivered
  }

  /** The turn `turn` puts before the provider the text and, if there were any, exactly the
      completions delivered with it. */
  ghost predicate ProviderSees(db: Db, turn: string, render: (string, seq<Completion>) -> Option<string>, text: string,
                               claims: seq<DeliveryClaim>, shown: seq<Completion>)
  {
    && turn in db.turns && Shows(db.outbox, claims, shown)
    && (claims == [] ==> db.turns[turn].providerPrompt == text)
    && (claims != [] ==> render(text, shown) == Some(db.turns[turn].providerPrompt))
  }

  /** Accepted, and the provider told what was delivered. */
  ghost predicate AcceptedWith(db: Db, turn: string, session: string, text: string,
                             render: (string, seq<Completion>) -> Option<string>, claims: seq<DeliveryClaim>, shown: seq<Completion>)
  {
    ProviderSees(db, turn, render, text, claims, shown)
    && AcceptedPrompt(db, turn, session, text, db.turns[turn].providerPrompt, claims)
  }

  /** The `start_with_deliveries` call. */
  method StartOffered(world: World, turn: string, session: string, text: string, prompt: string, generation: nat,
                      claims: seq<DeliveryClaim>, now: nat, ghost ids: set<string>)
    returns (r: Result<Turn, StoreError>)
    requires world.Valid() && Strangers(world.others, ids) && Listed(world.store.outbox, ids, claims)
    requires Distinct(Events(claims)) && AllBelong(world.store.Contents(), session, claims)
    modifies world, world.store
    ensures world.Valid() && world.Extends(old(world.own), old(world.states))
    ensures world.own == old(world.own) + [[Op.StartTurn(turn, session, text, prompt, generation, claims, now)]]
    ensures r.Ok? <==> Enabled(world.Seen(|old(world.own)|), Op.StartTurn(turn, session, text, prompt, generation, claims, now))
    ensures r.Ok? ==> Listed(world.store.outbox, ids, []) && AcceptedPrompt(world.store.Contents(), turn, session, text, prompt, claims)
    ensures r.Err? ==> Listed(world.store.outbox, ids, claims)
    ensures Lasting(old(world.store.Contents()), world.store.Contents())
  {
    ghost var before := world.store.Contents();
    Elsewhere(world, ids);
    ghost var mid := world.store.Contents();
    ListedFades(before.outbox, mid.outbox, ids, claims);
    BelongingLasts(before, mid, session, claims);
    ghost var op := Op.StartTurn(turn, session, text, prompt, generation, claims, now);
    r := world.store.StartTurn(turn, session, text, prompt, generation, claims, now);
    world.Did(mid, op);
    StepLasts(mid, op, world.store.Contents());
    LastsTransitively(before, mid, world.store.Contents());
    if r.Ok? {
      AcceptanceUnlists(mid, op, world.store.Contents(), ids);
      BelongingLasts(mid, world.store.Contents(), session, claims);
    }
  }

  /** The offer, and the releases if it is refused. */
  method StartOrRelease(world: World, turn: string, session: string, text: string, prompt: string, generation: nat,
                        claims: seq<DeliveryClaim>, now: nat, ghost ids: set<string>)
    returns (r: Result<seq<DeliveryClaim>, StoreError>)
    requires world.Valid() && Strangers(world.others, ids) && Listed(world.store.outbox, ids, claims)
    requires Distinct(Events(claims)) && AllBelong(world.store.Contents(), session, claims)
    modifies world, world.store
    ensures world.Valid() && world.Extends(old(world.own), old(world.states)) && Listed(world.store.outbox, ids, [])
    ensures Offered(world.others, old(world.own), world.own, world.states, turn, session, text, Some(prompt), generation, claims, now, r)
    ensures r.Ok? ==> AcceptedPrompt(world.store.Contents(), turn, session, text, prompt, claims)
    ensures Lasting(old(world.store.Contents()), world.store.Contents())
  {
    ghost var calls, start := world.own, world.store.Contents();
    var started := StartOffered(world, turn, session, text, prompt, generation, claims, now, ids);
    if started.Ok? { return Ok(claims); }
    ghost var own, states, refused := world.own, world.states, world.store.Contents();
    ReleaseDeliveryClaims(world, claims, ids);
    world.Kept(own, states, |calls|);
    LastsTransitively(start, refused, world.store.Contents());
    return Err(started.error);
  }

  method LoadParent(world: World, session: string, ghost ids: set<string>) returns (r: Result<Session, StoreError>)
    requires world.Valid() && Strangers(world.others, ids) && Listed(world.store.outbox, ids, [])
    modifies world, world.store
    ensures world.Valid() && world.Extends(old(world.own), old(world.states)) && Listed(world.store.outbox, ids, [])
    ensures world.own == old(world.own) + [[]]
    ensures var sessions := world.Seen(|old(world.own)|).sessions;
            r == if session in sessions then Ok(sessions[session]) else Err(NotFound(session))
  {
    ghost var outbox := world.store.outbox;
    Elsewhere(world, ids);
    ListedFades(outbox, world.store.outbox, ids, []);
    r := LoadSession(world.store.sessions, session);
    world.Looked();
  }

  method OfferClaims(world: World, turn: string, session: string, text: string,
                     render: (string, seq<Completion>) -> Option<string>, generation: nat,
                     claims: seq<DeliveryClaim>, shown: seq<Completion>, now: nat, ghost ids: set<string>)
    returns (r: Result<seq<DeliveryClaim>, StoreError>)
    requires world.Valid() && Strangers(world.others, ids) && Listed(world.store.outbox, ids, claims)
    requires Distinct(Events(claims)) && AllBelong(world.store.Contents(), session, claims)
    requires Shows(world.store.outbox, claims, shown)
    modifies world, world.store
    ensures world.Valid() && world.Extends(old(world.own), old(world.states)) && Listed(world.store.outbox, ids, [])
    ensures Offered(world.others, old(world.own), world.own, world.states, turn, session, text, ProviderPrompt(render, text, shown),
                    generation, claims, now, r)
    ensures Shows(world.store.outbox, claims, shown)
    ensures r.Ok? ==> AcceptedWith(world.store.Contents(), turn, session, text, render, claims, shown)
  {
    ghost var start := world.store.Contents();
    var prompt := ProviderPrompt(render, text, shown);
    if prompt.None? {
      ReleaseDeliveryClaims(world, claims, ids);
      r := Err(Invalid);
    } else {
      r := StartOrRelease(world, turn, session, text, prompt.value, generation, claims, now, ids);
    }
    ShowingLasts(start, world.store.Contents(), claims, shown);
  }

  method ClaimAndOffer(world: World, session: string, turn: string, text: string,
                       render: (string, seq<Completion>) -> Option<string>, generation: nat, now: nat, drawn: seq<Option<string>>)
    returns (r: Result<seq<DeliveryClaim>, StoreError>, shown: seq<Completion>, ghost listed: seq<string>,
             ghost calls: seq<seq<Op>>, ghost claimed: Result<seq<DeliveryClaim>, StoreError>)
    requires world.Valid() && Strangers(world.others, Ids(drawn)) && COMPLETION_DELIVERY_LIMIT <= |drawn|
    requires Listed(world.store.outbox, Ids(drawn), [])
    modifies world, world.store
    ensures world.Valid() && world.Extends(old(world.own), old(world.states)) && |listed| <= |drawn|
    ensures ClaimedAndOffered(world.others, old(world.own), world.own, world.states, session, turn, text,
                              ProviderPrompt(render, text, shown), generation, now, drawn, listed, calls, claimed, r)
    ensures Listed(world.store.outbox, Ids(drawn), [])
    ensures claimed.Ok? ==> Shows(world.store.outbox, claimed.value, shown)
    ensures r.Ok? ==> AcceptedWith(world.store.Contents(), turn, session, text, render, r.value, shown)
  {
    ghost var before := world.own;
    var taken;
    taken, shown, listed := ClaimParentCompletions(world, session, now, drawn);
    calls, claimed := world.own, taken;
    if taken.Err? { return Err(taken.error), shown, listed, calls, claimed; }
    ghost var states := world.states;
    r := OfferClaims(world, turn, session, text, render, generation, taken.value, shown, now, Ids(drawn));
    ParentClaimsLater(world.others, before, calls, states, world.states, session, now, drawn, listed, claimed);
  }

  /** The acceptance part of `submit`. A prompt that can be offered is accepted exactly when the
      store can start its turn at that moment. Accepted: the turn is running, every completion
      claimed for it is delivered, and the provider is told the text with exactly those. Refused at
      whatever point: this gateway holds nothing. */
  method Submit(world: World, session: string, turn: string, text: string,
                render: (string, seq<Completion>) -> Option<string>, now: nat, drawn: seq<Option<string>>)
    returns (r: Result<seq<DeliveryClaim>, StoreError>, shown: seq<Completion>, ghost listed: seq<string>,
             ghost calls: seq<seq<Op>>, ghost claimed: Result<seq<DeliveryClaim>, StoreError>)
    requires world.Valid() && Strangers(world.others, Ids(drawn)) && COMPLETION_DELIVERY_LIMIT <= |drawn|
    requires Listed(world.store.outbox, Ids(drawn), [])
    modifies world, world.store
    ensures world.Valid() && world.Extends(old(world.own), old(world.states)) && |listed| <= |drawn|
    ensures Submitted(world.others, old(world.own), world.own, world.states, session, turn, text,
                      ProviderPrompt(render, text, shown), now, drawn, listed, calls, claimed, r)
    ensures Listed(world.store.outbox, Ids(drawn), [])
    ensures claimed.Ok? ==> Shows(world.store.outbox, claimed.value, shown)
    ensures r.Ok? ==> AcceptedWith(world.store.Contents(), turn, session, text, render, r.value, shown)
  {
    listed, calls, claimed, shown := [], [], Err(Invalid), [];
    if Blank(text) { return Err(Invalid), shown, listed, calls, claimed; }
    ghost var before := world.own;
    var snapshot := LoadParent(world, session, Ids(drawn));
    if snapshot.Err? { return Err(snapshot.error), shown, listed, calls, claimed; }
    ghost var own, states := world.own, world.states;
    r, shown, listed, calls, claimed := ClaimAndOffer(world, session, turn, text, render, snapshot.value.generation, now, drawn);
    world.Kept(own, states, |before|);
  }

  /** A prompt is accepted if and only if its text is not blank, its session was there to be loaded,
      claiming went through, the prompt could be rendered, and the state the start finds can start
      this turn: with the generation loaded and the claims won. */
  lemma SubmitIsExact(others: nat -> seq<Op>, before: seq<seq<Op>>, own: seq<seq<Op>>, states: seq<Db>,
                      session: string, turn: string, text: string, prompt: Option<string>, now: nat,
                      drawn: seq<Option<string>>, listed: seq<string>, calls: seq<seq<Op>>,
                      claimed: Result<seq<DeliveryClaim>, StoreError>, r: Result<seq<DeliveryClaim>, StoreError>)
    requires History.Behavior(states, Run(others, own)) && |listed| <= |drawn|
    requires Submitted(others, before, own, states, session, turn, text, prompt, now, drawn, listed, calls, claimed, r)
    ensures var sessions := SeenIn(others, own, states, |before|).sessions;
            r.Ok? <==>
              && !Blank(text) && session in sessions && claimed.Ok? && prompt.Some?
              && Progress.CanStart(SeenIn(others, own, states, |calls|), turn, session, text, prompt.value,
                                   sessions[session].generation, claimed.value, now)
    ensures r.Ok? ==> r == claimed
  {
    var sessions := SeenIn(others, own, states, |before|).sessions;
    if !Blank(text) && session in sessions && claimed.Ok? && prompt.Some? {
      SeenIsValid(others, own, states, |calls|);
      Progress.StartMeans(SeenIn(others, own, states, |calls|), turn, session, text, prompt.value, sessions[session].generation,
                          claimed.value, now);
    }
  }

  // ---- Nobody else's claims ----------------------------------------------------------

  lemma {:induction false} WonIsDrawn(others: nat -> seq<Op>, own: seq<seq<Op>>, states: seq<Db>, n: nat, listed: seq<string>,
                                      drawn: seq<Option<string>>, now: nat, i: nat)
    requires i <= |listed| <= |drawn| && forall k :: 0 <= k < i ==> drawn[k].Some?
    ensures AllUnder(Won(others, own, states, n, listed, drawn, now, i), Ids(drawn))
  {
    if i > 0 {
      WonIsDrawn(others, own, states, n, listed, drawn, now, i - 1);
      assert drawn[i - 1].value in Ids(drawn);
    }
  }

  lemma {:induction false} ClaimsAreMine(listed: seq<string>, drawn: seq<Option<string>>, now: nat, i: nat)
    requires i <= |listed| <= |drawn| && forall k :: 0 <= k < i ==> drawn[k].Some?
    ensures MineFrom(ClaimCalls(listed, drawn, now, i), 0, Ids(drawn))
  {
    if i > 0 {
      ClaimsAreMine(listed, drawn, now, i - 1);
      var op := ClaimOp(listed[i - 1], drawn[i - 1].value, now);
      assert Mine(op, Ids(drawn));
      OneIsMine(op, Ids(drawn));
      MineAppend(ClaimCalls(listed, drawn, now, i - 1), 0, [[op]], Ids(drawn));
    }
  }

  lemma OneIsMine(op: Op, ids: set<string>)
    requires Mine(op, ids)
    ensures MineFrom([[op]], 0, ids) && MineFrom([[]], 0, ids)
  {
  }

  lemma ParentClaimsAreMine(others: nat -> seq<Op>, before: seq<seq<Op>>, own: seq<seq<Op>>, states: seq<Db>, session: string,
                            now: nat, drawn: seq<Option<string>>, listed: seq<string>, r: Result<seq<DeliveryClaim>, StoreError>,
                            n: nat)
    requires |listed| <= |drawn| && ParentClaims(others, before, own, states, session, now, drawn, listed, r)
    requires n <= |before| && MineFrom(before, n, Ids(drawn))
    ensures MineFrom(own, n, Ids(drawn)) && n <= |own|
    ensures r.Ok? ==> AllUnder(r.value, Ids(drawn))
  {
    var ids := Ids(drawn);
    MineAppend(before, n, [[]], ids);
    if now <= MAX_I64 {
      var tried := Tried(listed, drawn, now);
      var won := Won(others, own, states, |before| + 1, listed, drawn, now, tried);
      var calls := ClaimCalls(listed, drawn, now, tried);
      WonIsDrawn(others, own, states, |before| + 1, listed, drawn, now, tried);
      ClaimsAreMine(listed, drawn, now, tried);
      MineAppend(before + [[]], n, calls, ids);
      ReleasesAreMine(won, ids);
      MineAppend(before + [[]] + calls, n, ReleaseCalls(won), ids);
    }
  }

  lemma OfferIsMine(others: nat -> seq<Op>, calls: seq<seq<Op>>, own: seq<seq<Op>>, states: seq<Db>, turn: string,
                    session: string, text: string, prompt: Option<string>, generation: nat,
                    claims: seq<DeliveryClaim>, now: nat, r: Result<seq<DeliveryClaim>, StoreError>, ids: set<string>, n: nat)
    requires Offered(others, calls, own, states, turn, session, text, prompt, generation, claims, now, r)
    requires AllUnder(claims, ids) && n <= |calls| && MineFrom(calls, n, ids)
    ensures MineFrom(own, n, ids)
  {
    ReleasesAreMine(claims, ids);
    MineAppend(calls, n, ReleaseCalls(claims), ids);
    if prompt.Some? {
      var op := Op.StartTurn(turn, session, text, prompt.value, generation, claims, now);
      OneIsMine(op, ids);
      MineAppend(calls, n, [[op]], ids);
      MineAppend(calls + [[op]], n, ReleaseCalls(claims), ids);
    }
  }

  /** Whatever becomes of a prompt, the gateway presents no claim id but those it drew for it. */
  lemma SubmitIsMine(others: nat -> seq<Op>, before: seq<seq<Op>>, own: seq<seq<Op>>, states: seq<Db>,
                     session: string, turn: string, text: string, prompt: Option<string>, now: nat,
                     drawn: seq<Option<string>>, listed: seq<string>, calls: seq<seq<Op>>,
                     claimed: Result<seq<DeliveryClaim>, StoreError>, r: Result<seq<DeliveryClaim>, StoreError>)
    requires |listed| <= |drawn|
    requires Submitted(others, before, own, states, session, turn, text, prompt, now, drawn, listed, calls, claimed, r)
    ensures MineFrom(own, |before|, Ids(drawn))
  {
    var sessions := SeenIn(others, own, states, |before|).sessions;
    if !Blank(text) && session in sessions {
      ParentClaimsAreMine(others, before + [[]], calls, states, session, now, drawn, listed, claimed, |before|);
      if claimed.Ok? {
        OfferIsMine(others, calls, own, states, turn, session, text, prompt, sessions[session].generation, claimed.value, now, r,
                    Ids(drawn), |before|);
      }
    }
  }

  /** So a completion held under anybody else's claim is not touched by any store call made for
      the prompt, unless that claim has lapsed. */
  lemma SubmitSparesOthers(others: nat -> seq<Op>, before: seq<seq<Op>>, own: seq<seq<Op>>, states: seq<Db>,
                           session: string, turn: string, text: string, prompt: Option<string>, now: nat,
                           drawn: seq<Option<string>>, listed: seq<string>, calls: seq<seq<Op>>,
                           claimed: Result<seq<DeliveryClaim>, StoreError>, r: Result<seq<DeliveryClaim>, StoreError>,
                           i: nat, event: string)
    requires |listed| <= |drawn| && History.Behavior(states, Run(others, own))
    requires Submitted(others, before, own, states, session, turn, text, prompt, now, drawn, listed, calls, claimed, r)
    requires |before| <= i < |own| && |own[i]| == 1
    requires var row := SeenIn(others, own, states, i).outbox;
             event in row && !row[event].delivered && row[event].claim.Some? && row[event].claim.value !in Ids(drawn)
    ensures Position(others, own, i) + 1 < |states|
    ensures var a, b := SeenIn(others, own, states, i).outbox, states[Position(others, own, i) + 1].outbox;
            event in b && (b[event] == a[event]
                           || (own[i][0].ClaimCompletion? && own[i][0].event == event
                               && a[event].expires.GetOr(own[i][0].now + 1) <= own[i][0].now))
  {
    SubmitIsMine(others, before, own, states, session, turn, text, prompt, now, drawn, listed, calls, claimed, r);
    assert MineCall(own[i], Ids(drawn));
    CallIsStep(others, own, states, i);
    MineSparesOthers(SeenIn(others, own, states, i), own[i][0], states[Position(others, own, i) + 1], Ids(drawn), event);
  }

  // ---- Cancelling a delegation -------------------------------------------------------

  datatype CancelReply =
    | Accepted
    | AlreadyRequested(reason: string)
    | AlreadyTerminal

  datatype CancelError = BadReason | UnknownParent | NotOwned | Contended | Refused(error: StoreError)

  predicate OwnedBy(db: Db, parent: string, id: string) {
    id in db.delegations && db.delegations[id].spec.parent == parent
  }

  /** What a loaded row already answers, if anything. */
  function AnswerOf(db: Db, parent: string, id: string): Option<Result<CancelReply, CancelError>> {
    if !OwnedBy(db, parent, id) then Some(Err(NotOwned))
    else if db.delegations[id].Over() then Some(Ok(AlreadyTerminal))
    else if db.delegations[id].status.IsRunning? && db.delegations[id].reason.Some?
    then Some(Ok(AlreadyRequested(db.delegations[id].reason.value)))
    else None
  }

  function AttemptOp(loaded: Db, id: string, reason: string, at: nat): Op
    requires id in loaded.delegations
  {
    Op.Cancel(id, loaded.delegations[id].generation, reason, at)
  }

  predicate Moved(loaded: Db, there: Db, id: string) {
    id in loaded.delegations && id in there.delegations
    && there.delegations[id].generation != loaded.delegations[id].generation
  }

  /** Calls `k` and `k + 1` are a load and an attempt that found the generation moved. */
  ghost predicate Conflicted(others: nat -> seq<Op>, own: seq<seq<Op>>, states: seq<Db>, k: nat, parent: string, id: string,
                             reason: string, at: nat)
  {
    var loaded := SeenIn(others, own, states, k);
    && k + 1 < |own| && own[k] == []
    && AnswerOf(loaded, parent, id).None?
    && own[k + 1] == [AttemptOp(loaded, id, reason, at)]
    && Moved(loaded, SeenIn(others, own, states, k + 1), id)
  }

  /** The round that begins with call `k` is the last one and gives the reply. */
  ghost predicate Decided(others: nat -> seq<Op>, own: seq<seq<Op>>, states: seq<Db>, k: nat, parent: string, id: string,
                          reason: string, at: nat, r: Result<CancelReply, CancelError>)
  {
    var loaded := SeenIn(others, own, states, k);
    && k < |own| && own[k] == []
    && match AnswerOf(loaded, parent, id)
       case Some(reply) => |own| == k + 1 && r == reply
       case None =>
         var op, there := AttemptOp(loaded, id, reason, at), SeenIn(others, own, states, k + 1);
         && |own| == k + 2 && own[k + 1] == [op]
         && if Enabled(there, op) then r == Ok(Accepted) else r.Err? && r.error.Refused? && !Moved(loaded, there, id)
  }

  ghost predicate AllConflicted(others: nat -> seq<Op>, own: seq<seq<Op>>, states: seq<Db>, n: nat, parent: string, id: string,
                                reason: string, times: seq<nat>, m: nat)
    requires m <= |times|
  {
    forall j {:trigger times[j]} :: 0 <= j < m ==> Conflicted(others, own, states, n + 2 * j, parent, id, reason, times[j])
  }

  /** The run of `cancel_delegation` after the calls `before`: `m` rounds lost to a moved
      generation, then a round that decides, unless all three were lost. */
  ghost predicate CancelRun(others: nat -> seq<Op>, before: seq<seq<Op>>, own: seq<seq<Op>>, states: seq<Db>, parent: string,
                            id: string, reason: string, times: seq<nat>, m: nat, r: Result<CancelReply, CancelError>)
    requires |times| == 3
  {
    if !ValidDetail(reason) then own == before && r == Err(BadReason)
    else if parent !in SeenIn(others, own, states, |before|).sessions then own == before + [[]] && r == Err(UnknownParent)
    else before + [[]] <= own && RoundsRun(others, |before| + 1, own, states, parent, id, reason, times, m, r)
  }

  ghost predicate RoundsRun(others: nat -> seq<Op>, n: nat, own: seq<seq<Op>>, states: seq<Db>, parent: string,
                            id: string, reason: string, times: seq<nat>, m: nat, r: Result<CancelReply, CancelError>)
    requires |times| == 3
  {
    && m <= 3
    && AllConflicted(others, own, states, n, parent, id, reason, times, m)
    && if m == 3 then |own| == n + 6 && r == Err(Contended)
       else Decided(others, own, states, n + 2 * m, parent, id, reason, times[m], r)
  }

  lemma ConflictsMore(others: nat -> seq<Op>, own: seq<seq<Op>>, states: seq<Db>, own': seq<seq<Op>>, states': seq<Db>,
                      n: nat, parent: string, id: string, reason: string, times: seq<nat>, m: nat)
    requires own <= own' && states <= states' && |Run(others, own)| < |states|
    requires m < |times| && AllConflicted(others, own, states, n, parent, id, reason, times, m)
    requires Conflicted(others, own', states', n + 2 * m, parent, id, reason, times[m])
    ensures AllConflicted(others, own', states', n, parent, id, reason, times, m + 1)
  {
    ConflictsStay(others, own, states, own', states', n, parent, id, reason, times, m);
  }

  lemma ConflictStays(others: nat -> seq<Op>, own: seq<seq<Op>>, states: seq<Db>, own': seq<seq<Op>>, states': seq<Db>,
                      k: nat, parent: string, id: string, reason: string, at: nat)
    requires own <= own' && states <= states' && |Run(others, own)| < |states|
    requires Conflicted(others, own, states, k, parent, id, reason, at)
    ensures Conflicted(others, own', states', k, parent, id, reason, at)
  {
    SeenStays(others, own, states, own', states', k);
    SeenStays(others, own, states, own', states', k + 1);
  }

  lemma ConflictsStay(others: nat -> seq<Op>, own: seq<seq<Op>>, states: seq<Db>, own': seq<seq<Op>>, states': seq<Db>,
                      n: nat, parent: string, id: string, reason: string, times: seq<nat>, m: nat)
    requires own <= own' && states <= states' && |Run(others, own)| < |states|
    requires m <= |times| && AllConflicted(others, own, states, n, parent, id, reason, times, m)
    ensures AllConflicted(others, own', states', n, parent, id, reason, times, m)
  {
    forall j {:trigger times[j]} | 0 <= j < m
      ensures Conflicted(others, own', states', n + 2 * j, parent, id, reason, times[j])
    {
      ConflictStays(others, own, states, own', states', n + 2 * j, parent, id, reason, times[j]);
    }
  }

  /** The attempt after a load that left it open. */
  method Attempt(world: World, ghost k: nat, id: string, generation: nat, reason: string, at: nat)
    returns (r: Result<Snapshot, StoreError>)
    requires world.Valid() && ValidDetail(reason) && k + 1 == |world.own|
    requires id in world.Seen(k).delegations && world.Seen(k) == world.store.Contents()
    modifies world, world.store
    ensures world.Valid() && world.Extends(old(world.own), old(world.states)) && world.Seen(k) == old(world.Seen(k))
    ensures world.own == old(world.own) + [[Op.Cancel(id, generation, reason, at)]]
    ensures r.Ok? <==> Enabled(world.Seen(k + 1), Op.Cancel(id, generation, reason, at))
    ensures id in world.Seen(k + 1).delegations
    ensures r.Err? && r.error.GenerationConflict? <==> world.Seen(k + 1).delegations[id].generation != generation
  {
    ghost var own, states := world.own, world.states;
    world.Arrive();
    ghost var seen := world.store.Contents();
    ghost var run := world.states[|states| - 1..];
    History.EvolvesOverRun(run, world.others(|own|), 0, |run| - 1, id);
    r := world.store.Cancel(id, generation, reason, at);
    world.Did(seen, Op.Cancel(id, generation, reason, at));
    world.Kept(own, states, k);
  }

  method LoadAnswer(world: World, parent: string, id: string)
    returns (answer: Option<Result<CancelReply, CancelError>>, generation: nat)
    requires world.Valid()
    modifies world, world.store
    ensures world.Valid() && world.Extends(old(world.own), old(world.states)) && world.own == old(world.own) + [[]]
    ensures world.Seen(|old(world.own)|) == world.store.Contents()
    ensures answer == AnswerOf(world.store.Contents(), parent, id)
    ensures answer.None? ==> generation == world.store.delegations[id].generation
  {
    world.Arrive();
    generation := 0;
    answer := Some(Err(NotOwned));
    if id in world.store.delegations && world.store.delegations[id].spec.parent == parent {
      var row := world.store.delegations[id];
      generation := row.generation;
      answer := if row.Over() then Some(Ok(AlreadyTerminal))
                else if row.status.IsRunning? && row.reason.Some? then Some(Ok(AlreadyRequested(row.reason.value)))
                else None;
    }
    world.Looked();
  }

  /** One of the three rounds. */
  method CancelRound(world: World, parent: string, id: string, reason: string, at: nat)
    returns (reply: Option<Result<CancelReply, CancelError>>)
    requires world.Valid() && ValidDetail(reason)
    modifies world, world.store
    ensures world.Valid() && world.Extends(old(world.own), old(world.states))
    ensures match reply
            case Some(r) => Decided(world.others, world.own, world.states, |old(world.own)|, parent, id, reason, at, r)
            case None => Conflicted(world.others, world.own, world.states, |old(world.own)|, parent, id, reason, at)
                         && |world.own| == |old(world.own)| + 2
  {
    ghost var k := |world.own|;
    var answer, generation := LoadAnswer(world, parent, id);
    if answer.Some? { return answer; }
    var cancelled := Attempt(world, k, id, generation, reason, at);
    if cancelled.Ok? { return Some(Ok(Accepted)); }
    if !cancelled.error.GenerationConflict? { return Some(Err(Refused(cancelled.error))); }
    return None;
  }

  method CancelRounds(world: World, parent: string, id: string, reason: string, times: seq<nat>)
    returns (r: Result<CancelReply, CancelError>, ghost m: nat)
    requires world.Valid() && |times| == 3 && ValidDetail(reason)
    modifies world, world.store
    ensures world.Valid() && world.Extends(old(world.own), old(world.states))
    ensures old(world.own) <= world.own
    ensures RoundsRun(world.others, |old(world.own)|, world.own, world.states, parent, id, reason, times, m, r)
  {
    m := 0;
    ghost var n := |world.own|;
    for i := 0 to 3
      invariant m == i && world.Valid() && world.Extends(old(world.own), old(world.states)) && |world.own| == n + 2 * i
      invariant AllConflicted(world.others, world.own, world.states, n, parent, id, reason, times, i)
    {
      ghost var own, states := world.own, world.states;
      var reply := CancelRound(world, parent, id, reason, times[i]);
      if reply.Some? {
        ConflictsStay(world.others, own, states, world.own, world.states, n, parent, id, reason, times, i);
        return reply.value, m;
      }
      ConflictsMore(world.others, own, states, world.own, world.states, n, parent, id, reason, times, i);
      m := m + 1;
    }
    r := Err(Contended);
  }

  /** `authorized_parent`. */
  method KnowsParent(world: World, parent: string) returns (known: bool)
    requires world.Valid()
    modifies world, world.store
    ensures world.Valid() && world.Extends(old(world.own), old(world.states)) && world.own == old(world.own) + [[]]
    ensures known <==> parent in world.Seen(|old(world.own)|).sessions
  {
    world.Arrive();
    known := parent in world.store.sessions;
    world.Looked();
  }

  /** `cancel_delegation`: the session must exist, then three rounds of load and attempt, the next
      one only when the generation moved in between. */
  method CancelDelegation(world: World, parent: string, id: string, reason: string, times: seq<nat>)
    returns (r: Result<CancelReply, CancelError>, ghost m: nat)
    requires world.Valid() && |times| == 3
    modifies world, world.store
    ensures world.Valid() && world.Extends(old(world.own), old(world.states))
    ensures CancelRun(world.others, old(world.own), world.own, world.states, parent, id, reason, times, m, r)
  {
    m := 0;
    if !ValidDetail(reason) { return Err(BadReason), m; }
    ghost var before := world.own;
    var known := KnowsParent(world, parent);
    if !known { return Err(UnknownParent), m; }
    ghost var own, states := world.own, world.states;
    r, m := CancelRounds(world, parent, id, reason, times);
    world.Kept(own, states, |before|);
  }

  /** The reply as the database bears it out. */
  ghost predicate BorneOut(db: Db, parent: string, id: string, reason: string, reply: CancelReply) {
    && OwnedBy(db, parent, id)
    && var row := db.delegations[id];
       match reply
       case Accepted => (row.status.IsRunning? && row.reason == Some(reason)) || row.terminal == Some(Outcome.Cancelled(reason))
       case AlreadyRequested(earlier) => row.status.IsRunning? && row.reason == Some(earlier)
       case AlreadyTerminal => row.Over()
  }

  lemma DecisionIsBorneOut(others: nat -> seq<Op>, own: seq<seq<Op>>, states: seq<Db>, k: nat, parent: string, id: string,
                           reason: string, at: nat, r: Result<CancelReply, CancelError>)
    requires History.Behavior(states, Run(others, own))
    requires Decided(others, own, states, k, parent, id, reason, at, r) && r.Ok?
    ensures BorneOut(states[|states| - 1], parent, id, reason, r.value)
  {
    var loaded := SeenIn(others, own, states, k);
    if AnswerOf(loaded, parent, id).Some? {
      LastLook(others, own, states);
    } else {
      AttemptIsBorneOut(others, own, states, k, parent, id, reason, at);
    }
  }

  lemma AttemptIsBorneOut(others: nat -> seq<Op>, own: seq<seq<Op>>, states: seq<Db>, k: nat, parent: string, id: string,
                          reason: string, at: nat)
    requires History.Behavior(states, Run(others, own)) && |own| == k + 2
    requires OwnedBy(SeenIn(others, own, states, k), parent, id)
    requires var op := AttemptOp(SeenIn(others, own, states, k), id, reason, at);
             own[k + 1] == [op] && Enabled(SeenIn(others, own, states, k + 1), op)
    ensures BorneOut(states[|states| - 1], parent, id, reason, Accepted)
  {
    RowEvolvesBetween(others, own, states, k, k + 1, id);
    CallIsStep(others, own, states, k + 1);
    AcceptedIsBorneOut(SeenIn(others, own, states, k), SeenIn(others, own, states, k + 1), states[|states| - 1], parent, id, reason, at);
  }

  /** Every reply is backed by what is durable by then. */
  lemma ReplyIsBorneOut(others: nat -> seq<Op>, before: seq<seq<Op>>, own: seq<seq<Op>>, states: seq<Db>, parent: string,
                        id: string, reason: string, times: seq<nat>, m: nat, r: Result<CancelReply, CancelError>)
    requires History.Behavior(states, Run(others, own)) && |times| == 3
    requires CancelRun(others, before, own, states, parent, id, reason, times, m, r) && r.Ok?
    ensures BorneOut(states[|states| - 1], parent, id, reason, r.value)
  {
    DecisionIsBorneOut(others, own, states, |before| + 1 + 2 * m, parent, id, reason, times[m], r);
  }

  lemma AcceptedIsBorneOut(loaded: Db, there: Db, next: Db, parent: string, id: string, reason: string, at: nat)
    requires OwnedBy(loaded, parent, id) && id in there.delegations
    requires there.delegations[id].spec == loaded.delegations[id].spec
    requires Enabled(there, AttemptOp(loaded, id, reason, at)) && Next(there, AttemptOp(loaded, id, reason, at), next)
    ensures BorneOut(next, parent, id, reason, Accepted)
  {
  }

  /** The loaded row is the parent's, and neither over nor asked to stop. */
  predicate StillOpen(db: Db, parent: string, id: string) {
    && id in db.delegations && db.delegations[id].spec.parent == parent
    && db.delegations[id].terminal.None? && db.delegations[id].reason.None?
  }

  /** The load of round `j` found it so. */
  ghost predicate RoundFoundOpen(others: nat -> seq<Op>, own: seq<seq<Op>>, states: seq<Db>, n: nat, j: nat, parent: string, id: string) {
    StillOpen(SeenIn(others, own, states, n + 2 * j), parent, id)
  }

  lemma LoadDecides(db: Db, parent: string, id: string)
    requires Valid(db)
    ensures AnswerOf(db, parent, id).None? <==> StillOpen(db, parent, id)
    ensures AnswerOf(db, parent, id) == Some(Err(NotOwned)) <==> id !in db.delegations || db.delegations[id].spec.parent != parent
    ensures AnswerOf(db, parent, id) == Some(Ok(AlreadyTerminal)) <==>
              id in db.delegations && db.delegations[id].spec.parent == parent && db.delegations[id].terminal.Some?
    ensures forall earlier :: AnswerOf(db, parent, id) == Some(Ok(AlreadyRequested(earlier))) <==>
              id in db.delegations && db.delegations[id].spec.parent == parent && db.delegations[id].reason == Some(earlier)
  {
    if id in db.delegations { assert DelegationOk(db.sessions.Keys, id, db.delegations[id]); }
  }

  /** The reply that the row just loaded calls for, if it calls for one. */
  ghost predicate RepliesTo(loaded: Db, parent: string, id: string, r: Result<CancelReply, CancelError>) {
    var rows := loaded.delegations;
    && (r == Err(NotOwned) <==> id !in rows || rows[id].spec.parent != parent)
    && (r == Ok(AlreadyTerminal) <==> id in rows && rows[id].spec.parent == parent && rows[id].terminal.Some?)
    && (forall earlier :: r == Ok(AlreadyRequested(earlier)) <==>
          id in rows && rows[id].spec.parent == parent && rows[id].reason == Some(earlier))
    && (r == Ok(Accepted) || (r.Err? && r.error.Refused?) <==> StillOpen(loaded, parent, id))
    && r != Err(Contended)
  }

  lemma DecisionIsExact(others: nat -> seq<Op>, own: seq<seq<Op>>, states: seq<Db>, k: nat, parent: string, id: string,
                        reason: string, at: nat, r: Result<CancelReply, CancelError>)
    requires Valid(SeenIn(others, own, states, k)) && Decided(others, own, states, k, parent, id, reason, at, r)
    requires k + 1 < |own| ==> Valid(SeenIn(others, own, states, k + 1))
    ensures var loaded := SeenIn(others, own, states, k);
            && RepliesTo(loaded, parent, id, r)
            && (StillOpen(loaded, parent, id) ==>
                  RequestsAt(others, own, states, k + 1, id, loaded.delegations[id].generation, reason, at, r))
  {
    LoadDecides(SeenIn(others, own, states, k), parent, id);
    if StillOpen(SeenIn(others, own, states, k), parent, id) {
      Progress.CancelMeans(SeenIn(others, own, states, k + 1), id, SeenIn(others, own, states, k).delegations[id].generation, reason, at);
    }
  }

  /** Call `k` is the last one and asks for the cancellation at this generation; the reply says whether
      the row it finds can be cancelled so. */
  ghost predicate RequestsAt(others: nat -> seq<Op>, own: seq<seq<Op>>, states: seq<Db>, k: nat, id: string, generation: nat,
                             reason: string, at: nat, r: Result<CancelReply, CancelError>)
  {
    && |own| == k + 1 && own[k] == [Op.Cancel(id, generation, reason, at)]
    && (r == Ok(Accepted) <==> Progress.CanCancel(SeenIn(others, own, states, k), id, generation, reason, at))
  }

  /** Which reply is given, by the rows the loads found. All but the last found the row still open;
      the last one decides, or is followed by a request at the generation it found. */
  lemma ReplyIsExact(others: nat -> seq<Op>, n: nat, own: seq<seq<Op>>, states: seq<Db>, parent: string,
                     id: string, reason: string, times: seq<nat>, m: nat, r: Result<CancelReply, CancelError>)
    requires History.Behavior(states, Run(others, own)) && |times| == 3
    requires RoundsRun(others, n, own, states, parent, id, reason, times, m, r)
    ensures m <= 3 && (r == Err(Contended) <==> m == 3)
    ensures forall j :: 0 <= j < m ==> RoundFoundOpen(others, own, states, n, j, parent, id)
    ensures m < 3 ==>
              var loaded := SeenIn(others, own, states, n + 2 * m);
              && RepliesTo(loaded, parent, id, r)
              && (StillOpen(loaded, parent, id) ==>
                    RequestsAt(others, own, states, n + 2 * m + 1, id, loaded.delegations[id].generation, reason, times[m], r))
  {
    LostRoundsWereOpen(others, own, states, n, parent, id, reason, times, m);
    if m < 3 {
      SeenIsValid(others, own, states, n + 2 * m);
      if n + 2 * m + 1 < |own| { SeenIsValid(others, own, states, n + 2 * m + 1); }
      DecisionIsExact(others, own, states, n + 2 * m, parent, id, reason, times[m], r);
    }
  }

  lemma LostRoundsWereOpen(others: nat -> seq<Op>, own: seq<seq<Op>>, states: seq<Db>, n: nat, parent: string, id: string,
                           reason: string, times: seq<nat>, m: nat)
    requires History.Behavior(states, Run(others, own)) && m <= |times|
    requires AllConflicted(others, own, states, n, parent, id, reason, times, m)
    ensures forall j :: 0 <= j < m ==> RoundFoundOpen(others, own, states, n, j, parent, id)
  {
    forall j | 0 <= j < m ensures RoundFoundOpen(others, own, states, n, j, parent, id) {
      assert Conflicted(others, own, states, n + 2 * j, parent, id, reason, times[j]);
      SeenIsValid(others, own, states, n + 2 * j);
      LoadDecides(SeenIn(others, own, states, n + 2 * j), parent, id);
    }
  }

  /** Giving up means that the generation advanced under it all three times. */
  lemma ContentionIsReal(others: nat -> seq<Op>, before: seq<seq<Op>>, own: seq<seq<Op>>, states: seq<Db>, parent: string,
                         id: string, reason: string, times: seq<nat>, m: nat)
    requires History.Behavior(states, Run(others, own)) && |times| == 3
    requires CancelRun(others, before, own, states, parent, id, reason, times, m, Err(Contended))
    ensures var n := |before| + 1;
            var first, last := SeenIn(others, own, states, n), SeenIn(others, own, states, n + 5);
            OwnedBy(first, parent, id) && id in last.delegations
            && first.delegations[id].generation + 3 <= last.delegations[id].generation
  {
    LostRounds(others, own, states, |before| + 1, parent, id, reason, times, 2);
  }

  lemma {:induction false} LostRounds(others: nat -> seq<Op>, own: seq<seq<Op>>, states: seq<Db>, n: nat, parent: string, id: string,
                                      reason: string, times: seq<nat>, j: nat)
    requires History.Behavior(states, Run(others, own)) && |times| == 3 && j < 3
    requires AllConflicted(others, own, states, n, parent, id, reason, times, 3)
    ensures n + 2 * j + 1 < |own|
    ensures var first, there := SeenIn(others, own, states, n), SeenIn(others, own, states, n + 2 * j + 1);
            OwnedBy(first, parent, id) && id in there.delegations
            && first.delegations[id].generation + j + 1 <= there.delegations[id].generation
    decreases j
  {
    LostRound(others, own, states, n, parent, id, reason, times, j);
    if j > 0 {
      LostRounds(others, own, states, n, parent, id, reason, times, j - 1);
      GenerationGrows(others, own, states, n + 2 * j - 1, n + 2 * j, id);
    }
  }

  lemma GenerationGrows(others: nat -> seq<Op>, own: seq<seq<Op>>, states: seq<Db>, i: nat, j: nat, id: string)
    requires History.Behavior(states, Run(others, own)) && i <= j < |own|
    requires id in SeenIn(others, own, states, i).delegations
    ensures id in SeenIn(others, own, states, j).delegations
    ensures SeenIn(others, own, states, i).delegations[id].generation <= SeenIn(others, own, states, j).delegations[id].generation
  {
    RowEvolvesBetween(others, own, states, i, j, id);
  }

  lemma LostRound(others: nat -> seq<Op>, own: seq<seq<Op>>, states: seq<Db>, n: nat, parent: string, id: string, reason: string,
                  times: seq<nat>, j: nat)
    requires History.Behavior(states, Run(others, own)) && |times| == 3 && j < 3
    requires AllConflicted(others, own, states, n, parent, id, reason, times, 3)
    ensures n + 2 * j + 1 < |own|
    ensures var loaded, there := SeenIn(others, own, states, n + 2 * j), SeenIn(others, own, states, n + 2 * j + 1);
            OwnedBy(loaded, parent, id) && id in there.delegations
            && loaded.delegations[id].generation < there.delegations[id].generation
  {
    assert Conflicted(others, own, states, n + 2 * j, parent, id, reason, times[j]);
    GenerationGrows(others, own, states, n + 2 * j, n + 2 * j + 1, id);
  }
}
