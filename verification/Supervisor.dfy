/** The background worker of `apps/hermesd/src/cli/background.rs:158-341` against a store that
    everybody else keeps using. Each of its methods is proved to make exactly the store calls
    the source makes, with whatever the others do in between, and what those calls achieve is
    read off that run. */
module Supervisor {
  import opened Basics
  import opened Tables
  import opened Protocol
  import opened Transactions
  import opened Stores
  import opened Worlds
  import Conversations
  import History
  import Invariance
  import Progress

  /** Could this operation end or re-lease delegation `id`? Cancellation requests cannot. */
  predicate Disturbs(op: Op, id: string) {
    || ((op.Claim? || op.Heartbeat? || op.Finish? || op.CompleteChild?) && op.id == id)
    || op.ReconcileExpired? || op.ReconcileRunning?
  }

  ghost predicate Quiet(ops: seq<Op>, id: string) {
    forall i :: 0 <= i < |ops| ==> !Disturbs(ops[i], id)
  }

  /** The others leave the lease alone before every call from `a` up to `b`. */
  ghost predicate QuietCalls(others: nat -> seq<Op>, a: nat, b: nat, id: string) {
    forall k {:trigger others(k)} :: a <= k < b ==> Quiet(others(k), id)
  }

  /** Still running under the same authority and lease; intent may have been stored, once. */
  predicate SameAuthority(a: Delegation, b: Delegation) {
    && a.status.IsRunning? && b.status.IsRunning?
    && b.generation == a.generation && b.fence == a.fence && b.lease == a.lease
    && a.updated <= b.updated
    && (a.reason.Some? ==> b == a)
  }

  lemma QuietStep(db: Db, op: Op, next: Db, id: string)
    requires Valid(db) && Next(db, op, next) && id in db.delegations && db.delegations[id].status.IsRunning?
    requires !Disturbs(op, id)
    ensures id in next.delegations && SameAuthority(db.delegations[id], next.delegations[id])
  {
    History.LawfulAt(db, id);
    if !(op.Cancel? && op.id == id) {
      UntouchedRow(db, op, next, id);
    }
  }

  lemma UntouchedRow(db: Db, op: Op, next: Db, id: string)
    requires Next(db, op, next) && id in db.delegations && db.delegations[id].status.IsRunning?
    requires !Disturbs(op, id) && !(op.Cancel? && op.id == id)
    requires Valid(db)
    ensures id in next.delegations && next.delegations[id] == db.delegations[id]
  {
  }

  ghost predicate QuietFrom(ops: seq<Op>, a: nat, b: nat, id: string) {
    forall k :: a <= k < b && k < |ops| ==> !Disturbs(ops[k], id)
  }

  /** Operations that leave the lease alone leave the worker in charge. */
  lemma {:induction false} QuietRun(states: seq<Db>, ops: seq<Op>, a: nat, b: nat, id: string)
    requires History.Behavior(states, ops) && a <= b <= |ops| && QuietFrom(ops, a, b, id)
    requires Running(states[a], id)
    ensures id in states[b].delegations && SameAuthority(states[a].delegations[id], states[b].delegations[id])
    decreases b
  {
    if a < b {
      QuietRun(states, ops, a, b - 1, id);
      History.AlwaysValid(states, ops, b - 1);
      assert History.StepAt(states, ops, b - 1);
      QuietStep(states[b - 1], ops[b - 1], states[b], id);
    }
  }

  predicate Running(db: Db, id: string) {
    id in db.delegations && db.delegations[id].status.IsRunning?
  }

  function IntentIn(db: Db, id: string): Option<string> {
    if Running(db, id) then db.delegations[id].reason else None
  }

  /** `Arrive`, and what the others may have done to the row meanwhile. */
  method ArriveAt(world: World, ghost id: string)
    requires world.Valid() && id in world.store.delegations
    modifies world, world.store
    ensures world.Arrived(world.store.Contents()) && Valid(world.store.Contents())
    ensures world.own == old(world.own) && world.Extends(old(world.own), old(world.states))
    ensures id in world.store.delegations
    ensures Quiet(world.others(|world.own|), id) && Running(old(world.store.Contents()), id) ==>
              SameAuthority(old(world.store.delegations)[id], world.store.delegations[id])
  {
    ghost var log := world.states;
    world.Arrive();
    ghost var run, ops := world.states[|log| - 1..], world.others(|world.own|);
    History.EvolvesOverRun(run, ops, 0, |ops|, id);
    if Quiet(ops, id) && Running(run[0], id) {
      QuietRun(run, ops, 0, |ops|, id);
    }
  }

  // ---- Keeping the lease -------------------------------------------------------------

  /** What wakes the worker: the child turn is over, a cancel signal (or its channel closing),
      the cancellation poll, or the heartbeat timer. */
  datatype Wake =
    | TurnOver
    | Signal(reason: Option<string>)
    | Poll
    | Beat(now: nat)

  /** `now_ms.saturating_add(LEASE_DURATION_MS)` on u64. */
  function LeaseDeadline(now: nat): nat {
    if now + 90_000 <= 0xffff_ffff_ffff_ffff then now + 90_000 else 0xffff_ffff_ffff_ffff
  }

  /** A heartbeat at `now` finds the lease open and would extend it. */
  predicate Renewable(row: Delegation, now: nat) {
    && row.lease.Some? && row.updated <= now < row.lease.value
    && row.lease.value < LeaseDeadline(now) <= MAX_I64
    && row.generation < MAX_I64
  }

  /** A heartbeat that presents this authority at `now` is accepted. */
  predicate BeatAccepted(db: Db, id: string, generation: nat, fence: nat, now: nat) {
    && id in db.delegations
    && var row := db.delegations[id];
       row.status.IsRunning? && row.generation == generation && row.fence == fence > 0 && Renewable(row, now)
  }

  /** How waiting ends; `StillWaiting` when the script of wakes runs out. */
  datatype WaitOutcome = Over | Stopped(reason: string) | LostLease | StillWaiting

  /** Heartbeats among the first `i` wakes. */
  function Beats(wakes: seq<Wake>, i: nat): nat
    requires i <= |wakes|
  {
    if i == 0 then 0 else Beats(wakes, i - 1) + if wakes[i - 1].Beat? then 1 else 0
  }

  function BeatOp(id: string, generation: nat, fence: nat, now: nat): Op {
    Op.Heartbeat(id, generation, fence, now, LeaseDeadline(now))
  }

  function CallOf(wake: Wake, id: string, generation: nat, fence: nat): seq<seq<Op>> {
    match wake
    case Poll => [[]]
    case Beat(now) => [[BeatOp(id, generation, fence, now)]]
    case _ => []
  }

  /** The store calls made for the first `i` wakes: each beat presents the generation its
      predecessors left, one more for every one of them. */
  function CallsFor(wakes: seq<Wake>, i: nat, id: string, claimed: nat, fence: nat): seq<seq<Op>>
    requires i <= |wakes|
  {
    if i == 0 then []
    else CallsFor(wakes, i - 1, id, claimed, fence)
         + CallOf(wakes[i - 1], id, claimed + Beats(wakes, i - 1), fence)
  }

  /** How one wake ends the wait, if it does, given the database its call finds. */
  ghost function ExitOf(wake: Wake, seen: Db, id: string, generation: nat, fence: nat): Option<WaitOutcome> {
    match wake
    case TurnOver => Some(Over)
    case Signal(reason) => (match reason { case Some(text) => Some(Stopped(text)) case None => None })
    case Poll => (match IntentIn(seen, id) { case Some(text) => Some(Stopped(text)) case None => None })
    case Beat(now) =>
      if !BeatAccepted(seen, id, generation, fence, now) then Some(LostLease)
      else match IntentIn(seen, id) { case Some(text) => Some(Stopped(text)) case None => None }
  }

  /** How wake `i` ends the wait that began at call `n`. */
  ghost function ExitAt(others: nat -> seq<Op>, own: seq<seq<Op>>, states: seq<Db>, n: nat,
                        wakes: seq<Wake>, i: nat, id: string, claimed: nat, fence: nat): Option<WaitOutcome>
    requires i < |wakes|
  {
    ExitOf(wakes[i], SeenIn(others, own, states, n + |CallsFor(wakes, i, id, claimed, fence)|), id,
           claimed + Beats(wakes, i), fence)
  }

  ghost predicate GoesOn(others: nat -> seq<Op>, own: seq<seq<Op>>, states: seq<Db>, n: nat,
                         wakes: seq<Wake>, m: nat, id: string, claimed: nat, fence: nat)
    requires m <= |wakes|
    decreases m
  {
    m > 0 ==>
      && GoesOn(others, own, states, n, wakes, m - 1, id, claimed, fence)
      && ExitAt(others, own, states, n, wakes, m - 1, id, claimed, fence).None?
  }

  /** The run of a wait: the wakes before `m` let it go on, wake `m` ends it, and the store calls
      are those of the wakes up to there. */
  ghost predicate Waited(others: nat -> seq<Op>, own: seq<seq<Op>>, states: seq<Db>, n: nat,
                         wakes: seq<Wake>, m: nat, id: string, claimed: nat, fence: nat,
                         outcome: WaitOutcome, generation: nat)
  {
    && m <= |wakes| && n <= |own|
    && GoesOn(others, own, states, n, wakes, m, id, claimed, fence)
    && if m < |wakes| then
         && own[n..] == CallsFor(wakes, m + 1, id, claimed, fence)
         && ExitAt(others, own, states, n, wakes, m, id, claimed, fence) == Some(outcome)
         && generation == claimed + Beats(wakes, m) + if wakes[m].Beat? && outcome.Stopped? then 1 else 0
       else
         && own[n..] == CallsFor(wakes, |wakes|, id, claimed, fence)
         && outcome.StillWaiting? && generation == claimed + Beats(wakes, |wakes|)
  }

  /** Wakes that let the wait go on still do once more calls have been made. */
  lemma {:induction false} GoesOnStays(others: nat -> seq<Op>, own: seq<seq<Op>>, states: seq<Db>, own': seq<seq<Op>>,
                                       states': seq<Db>, n: nat, wakes: seq<Wake>, m: nat, id: string, claimed: nat, fence: nat)
    requires own <= own' && states <= states' && |Run(others, own)| < |states|
    requires m <= |wakes| && n + |CallsFor(wakes, m, id, claimed, fence)| <= |own|
    requires GoesOn(others, own, states, n, wakes, m, id, claimed, fence)
    ensures GoesOn(others, own', states', n, wakes, m, id, claimed, fence)
    decreases m
  {
    if m > 0 {
      GoesOnStays(others, own, states, own', states', n, wakes, m - 1, id, claimed, fence);
      ExitStays(others, own, states, own', states', n, wakes, m - 1, id, claimed, fence);
    }
  }

  lemma ExitStays(others: nat -> seq<Op>, own: seq<seq<Op>>, states: seq<Db>, own': seq<seq<Op>>, states': seq<Db>, n: nat,
                  wakes: seq<Wake>, i: nat, id: string, claimed: nat, fence: nat)
    requires own <= own' && states <= states' && |Run(others, own)| < |states|
    requires i < |wakes| && n + |CallsFor(wakes, i + 1, id, claimed, fence)| <= |own|
    ensures ExitAt(others, own', states', n, wakes, i, id, claimed, fence)
            == ExitAt(others, own, states, n, wakes, i, id, claimed, fence)
  {
    if wakes[i].Poll? || wakes[i].Beat? {
      SeenStays(others, own, states, own', states', n + |CallsFor(wakes, i, id, claimed, fence)|);
    }
  }

  /** The worker still runs the row it claimed, and `generation` is the row's own. */
  predicate InCharge(start: Delegation, row: Delegation, generation: nat) {
    row.status.IsRunning? && row.generation == generation && row.fence == start.fence
  }

  /** One heartbeat with the tracked generation. */
  method RenewLease(world: World, id: string, generation: nat, fence: nat, now: nat) returns (r: Result<Snapshot, StoreError>)
    requires world.Valid() && id in world.store.delegations
    modifies world, world.store
    ensures world.Valid() && world.Extends(old(world.own), old(world.states))
    ensures world.own == old(world.own) + [[BeatOp(id, generation, fence, now)]]
    ensures id in world.store.delegations
    ensures var seen := world.Seen(|old(world.own)|);
            && (r.Ok? <==> BeatAccepted(seen, id, generation, fence, now))
            && (r.Ok? ==> r.value.generation == generation + 1 && r.value.state.Running?)
            && (r.Ok? ==>
                  match r.value.state.cancellation
                  case Some(stored) => IntentIn(seen, id) == Some(stored.reason)
                  case None => IntentIn(seen, id).None?)
    ensures Quiet(world.others(|old(world.own)|), id) && Running(old(world.store.Contents()), id) ==>
              var a, b := old(world.store.delegations)[id], world.store.delegations[id];
              && (r.Ok? ==> b.status.IsRunning? && b.generation == a.generation + 1 && b.fence == a.fence)
              && (r.Err? ==> SameAuthority(a, b) && (a.generation == generation && a.fence == fence ==> !Renewable(b, now)))
  {
    ArriveAt(world, id);
    ghost var seen := world.store.Contents();
    r := world.store.Heartbeat(id, generation, fence, now, LeaseDeadline(now));
    world.Did(seen, BeatOp(id, generation, fence, now));
    History.LawfulAt(seen, id);
    if r.Ok? { LawfulRowLoads(world.store.delegations[id]); }
  }

  /** The wait after `i` wakes, none of which ended it. */
  ghost predicate Waiting(others: nat -> seq<Op>, before: seq<seq<Op>>, own: seq<seq<Op>>, states: seq<Db>,
                          wakes: seq<Wake>, i: nat, id: string, claimed: nat, fence: nat, generation: nat)
  {
    && i <= |wakes| && own == before + CallsFor(wakes, i, id, claimed, fence)
    && generation == claimed + Beats(wakes, i)
    && GoesOn(others, own, states, |before|, wakes, i, id, claimed, fence)
  }

  /** Unless somebody else touched the lease, the worker that claimed is still in charge. */
  ghost predicate Kept(others: nat -> seq<Op>, a: nat, b: nat, id: string, start: Delegation, claimed: nat,
                       row: Delegation, generation: nat)
  {
    QuietCalls(others, a, b, id) && InCharge(start, start, claimed) ==> InCharge(start, row, generation)
  }

  lemma KeptOn(others: nat -> seq<Op>, a: nat, b: nat, c: nat, id: string, start: Delegation, claimed: nat,
               row: Delegation, generation: nat, row': Delegation, generation': nat)
    requires a <= b <= c && Kept(others, a, b, id, start, claimed, row, generation)
    requires QuietCalls(others, b, c, id) && row.status.IsRunning? && row.generation == generation ==> InCharge(row, row', generation')
    ensures Kept(others, a, c, id, start, claimed, row', generation')
  {
    if QuietCalls(others, a, c, id) {
      assert QuietCalls(others, a, b, id) && QuietCalls(others, b, c, id);
    }
  }

  lemma Handled(others: nat -> seq<Op>, before: seq<seq<Op>>, own: seq<seq<Op>>, states: seq<Db>, own': seq<seq<Op>>, states': seq<Db>,
                wakes: seq<Wake>, i: nat, id: string, claimed: nat, fence: nat, generation: nat,
                exit: Option<WaitOutcome>, next: nat)
    requires own <= own' && states <= states' && |Run(others, own)| < |states| && i < |wakes|
    requires Waiting(others, before, own, states, wakes, i, id, claimed, fence, generation)
    requires own' == own + CallOf(wakes[i], id, generation, fence)
    requires exit == ExitOf(wakes[i], SeenIn(others, own', states', |own|), id, generation, fence)
    requires next == generation + if wakes[i].Beat? && (exit.None? || exit.value.Stopped?) then 1 else 0
    ensures exit.None? ==> Waiting(others, before, own', states', wakes, i + 1, id, claimed, fence, next)
    ensures exit.Some? ==>
              Waited(others, own', states', |before|, wakes, i, id, claimed, fence, exit.value, next)
  {
    CallsAppend(before, own, own', wakes, i, id, claimed, fence);
    GoesOnStays(others, own, states, own', states', |before|, wakes, i, id, claimed, fence);
    ExitHere(others, own', states', |own|, |before|, wakes, i, id, claimed, fence);
    if exit.None? {
      GoesOnMore(others, own', states', |before|, wakes, i, id, claimed, fence);
    }
  }

  lemma ExitHere(others: nat -> seq<Op>, own: seq<seq<Op>>, states: seq<Db>, k: nat, n: nat,
                 wakes: seq<Wake>, i: nat, id: string, claimed: nat, fence: nat)
    requires i < |wakes| && k == n + |CallsFor(wakes, i, id, claimed, fence)|
    ensures ExitAt(others, own, states, n, wakes, i, id, claimed, fence)
            == ExitOf(wakes[i], SeenIn(others, own, states, k), id, claimed + Beats(wakes, i), fence)
  {
  }

  lemma CallsAppend(before: seq<seq<Op>>, own: seq<seq<Op>>, own': seq<seq<Op>>, wakes: seq<Wake>, i: nat, id: string,
                    claimed: nat, fence: nat)
    requires i < |wakes| && own == before + CallsFor(wakes, i, id, claimed, fence)
    requires own' == own + CallOf(wakes[i], id, claimed + Beats(wakes, i), fence)
    ensures own' == before + CallsFor(wakes, i + 1, id, claimed, fence)
    ensures own'[|before|..] == CallsFor(wakes, i + 1, id, claimed, fence)
    ensures |own| == |before| + |CallsFor(wakes, i, id, claimed, fence)|
  {
  }

  lemma GoesOnMore(others: nat -> seq<Op>, own: seq<seq<Op>>, states: seq<Db>, n: nat,
                   wakes: seq<Wake>, i: nat, id: string, claimed: nat, fence: nat)
    requires i < |wakes| && GoesOn(others, own, states, n, wakes, i, id, claimed, fence)
    requires ExitAt(others, own, states, n, wakes, i, id, claimed, fence).None?
    ensures GoesOn(others, own, states, n, wakes, i + 1, id, claimed, fence)
  {
  }

  /** One wake, handled: the store call it asks for is made, and it ends the wait or not. */
  method Handle(world: World, id: string, generation: nat, fence: nat, wake: Wake)
    returns (exit: Option<WaitOutcome>, next: nat)
    requires world.Valid() && id in world.store.delegations
    modifies world, world.store
    ensures world.Valid() && world.Extends(old(world.own), old(world.states)) && id in world.store.delegations
    ensures world.own == old(world.own) + CallOf(wake, id, generation, fence)
    ensures exit == ExitOf(wake, world.Seen(|old(world.own)|), id, generation, fence)
    ensures next == generation + if wake.Beat? && (exit.None? || exit.value.Stopped?) then 1 else 0
    ensures QuietCalls(world.others, |old(world.own)|, |world.own|, id) && Running(old(world.store.Contents()), id)
            && old(world.store.delegations)[id].generation == generation ==>
              var a, b := old(world.store.delegations)[id], world.store.delegations[id];
              && InCharge(a, b, next)
              && (exit == Some(LostLease) && a.fence == fence ==> wake.Beat? && !Renewable(b, wake.now))
  {
    next := generation;
    match wake {
      case TurnOver => return Some(Over), next;
      case Signal(reason) =>
        return match reason { case Some(text) => Some(Stopped(text)) case None => None }, next;
      case Poll =>
        ArriveAt(world, id);
        var row := world.store.delegations[id];
        world.Looked();
        return if row.status.IsRunning? && row.reason.Some? then Some(Stopped(row.reason.value)) else None, next;
      case Beat(now) =>
        var beat := RenewLease(world, id, generation, fence, now);
        if beat.Err? { return Some(LostLease), next; }
        next := beat.value.generation;
        if beat.value.state.cancellation.Some? {
          return Some(Stopped(beat.value.state.cancellation.value.reason)), next;
        }
        return None, next;
    }
  }

  /** The select loop of `execute_claim`. As long as nobody else touches the lease, the
      generation the worker tracks is the row's own, however many heartbeats went through, and
      the heartbeat that ends the wait is refused only for its own timing. */
  method Wait(world: World, id: string, claimed: nat, fence: nat, wakes: seq<Wake>)
    returns (outcome: WaitOutcome, generation: nat, ghost m: nat)
    requires world.Valid() && id in world.store.delegations
    modifies world, world.store
    ensures world.Valid() && world.Extends(old(world.own), old(world.states)) && id in world.store.delegations
    ensures Waited(world.others, world.own, world.states, |old(world.own)|, wakes, m, id, claimed, fence, outcome, generation)
    ensures var row := old(world.store.delegations)[id];
            QuietCalls(world.others, |old(world.own)|, |world.own|, id) && InCharge(row, row, claimed) ==>
              && InCharge(row, world.store.delegations[id], generation)
              && (outcome.LostLease? && fence == row.fence ==>
                    m < |wakes| && wakes[m].Beat? && !Renewable(world.store.delegations[id], wakes[m].now))
  {
    ghost var own, states, row := world.own, world.states, world.store.delegations[id];
    generation, m := claimed, 0;
    for i := 0 to |wakes|
      invariant m == i && world.Valid() && id in world.store.delegations && world.Extends(own, states)
      invariant Waiting(world.others, own, world.own, world.states, wakes, i, id, claimed, fence, generation)
      invariant Kept(world.others, |own|, |world.own|, id, row, claimed, world.store.delegations[id], generation)
    {
      ghost var own', states', row' := world.own, world.states, world.store.delegations[id];
      var exit, next := Handle(world, id, generation, fence, wakes[i]);
      KeptOn(world.others, |own|, |own'|, |world.own|, id, row, claimed, row', generation, world.store.delegations[id], next);
      Handled(world.others, own, own', states', world.own, world.states, wakes, i, id, claimed, fence, generation, exit, next);
      generation := next;
      if exit.Some? {
        return exit.value, generation, m;
      }
      m := m + 1;
    }
    assert world.own[|own|..] == CallsFor(wakes, |wakes|, id, claimed, fence);
    outcome := StillWaiting;
  }

  // ---- What ends a wait, by the rows its calls found ----------------------------------

  /** Store calls made for the first `i` wakes. */
  function CallsBefore(wakes: seq<Wake>, i: nat): nat
    requires i <= |wakes|
  {
    if i == 0 then 0 else CallsBefore(wakes, i - 1) + if wakes[i - 1].Poll? || wakes[i - 1].Beat? then 1 else 0
  }

  predicate AskedToStop(db: Db, id: string, reason: string) {
    id in db.delegations && db.delegations[id].reason == Some(reason)
  }

  predicate NotAsked(db: Db, id: string) {
    id in db.delegations ==> db.delegations[id].reason.None?
  }

  /** The wake gives the worker no cause to stop, `seen` being what its store call found. */
  predicate LetsOn(wake: Wake, seen: Db, id: string, generation: nat, fence: nat) {
    match wake
    case TurnOver => false
    case Signal(reason) => reason.None?
    case Poll => NotAsked(seen, id)
    case Beat(now) => BeatAccepted(seen, id, generation, fence, now) && NotAsked(seen, id)
  }

  /** The outcome that a wake which does not let the wait go on gives it. */
  ghost predicate CausesExit(wake: Wake, seen: Db, id: string, generation: nat, fence: nat, outcome: WaitOutcome, next: nat) {
    && (outcome == Over <==> wake.TurnOver?)
    && (outcome == LostLease <==> wake.Beat? && !BeatAccepted(seen, id, generation, fence, wake.now))
    && (forall text :: outcome == Stopped(text) <==>
          || wake == Signal(Some(text))
          || (wake.Poll? && AskedToStop(seen, id, text))
          || (wake.Beat? && BeatAccepted(seen, id, generation, fence, wake.now) && AskedToStop(seen, id, text)))
    && next == generation + if wake.Beat? && BeatAccepted(seen, id, generation, fence, wake.now) then 1 else 0
  }

  /** A wake that lets the wait go on does not end it, and any other ends it as it should. */
  ghost predicate Justified(wake: Wake, seen: Db, id: string, generation: nat, fence: nat, exit: Option<WaitOutcome>) {
    match exit
    case None => LetsOn(wake, seen, id, generation, fence)
    case Some(outcome) =>
      && !LetsOn(wake, seen, id, generation, fence) && outcome != StillWaiting
      && CausesExit(wake, seen, id, generation, fence, outcome, generation + if wake.Beat? && outcome.Stopped? then 1 else 0)
  }

  lemma WakeDecides(wake: Wake, seen: Db, id: string, generation: nat, fence: nat)
    requires wake.Poll? || wake.Beat? ==> Valid(seen)
    ensures Justified(wake, seen, id, generation, fence, ExitOf(wake, seen, id, generation, fence))
  {
    if (wake.Poll? || wake.Beat?) && id in seen.delegations { History.LawfulAt(seen, id); }
  }

  lemma {:induction false} CallsAreCounted(wakes: seq<Wake>, i: nat, id: string, claimed: nat, fence: nat)
    requires i <= |wakes|
    ensures |CallsFor(wakes, i, id, claimed, fence)| == CallsBefore(wakes, i)
  {
    if i > 0 { CallsAreCounted(wakes, i - 1, id, claimed, fence); }
  }

  /** What the store call of wake `i` found, of a wait that began at call `n`. */
  ghost function Found(others: nat -> seq<Op>, own: seq<seq<Op>>, states: seq<Db>, n: nat, wakes: seq<Wake>, i: nat): Db
    requires i < |wakes|
  {
    SeenIn(others, own, states, n + CallsBefore(wakes, i))
  }

  lemma {:induction false} CallsGrow(wakes: seq<Wake>, i: nat, j: nat)
    requires i <= j <= |wakes|
    ensures CallsBefore(wakes, i) <= CallsBefore(wakes, j)
  {
    if i < j { CallsGrow(wakes, i, j - 1); }
  }

  lemma ExitIsDecided(others: nat -> seq<Op>, own: seq<seq<Op>>, states: seq<Db>, n: nat, wakes: seq<Wake>, i: nat,
                      id: string, claimed: nat, fence: nat)
    requires i < |wakes| && (wakes[i].Poll? || wakes[i].Beat? ==> Valid(Found(others, own, states, n, wakes, i)))
    ensures Justified(wakes[i], Found(others, own, states, n, wakes, i), id, claimed + Beats(wakes, i), fence,
                      ExitAt(others, own, states, n, wakes, i, id, claimed, fence))
  {
    CallsAreCounted(wakes, i, id, claimed, fence);
    WakeDecides(wakes[i], Found(others, own, states, n, wakes, i), id, claimed + Beats(wakes, i), fence);
  }

  /** Every call of the wait found a sound database. */
  ghost predicate AllFoundValid(others: nat -> seq<Op>, own: seq<seq<Op>>, states: seq<Db>, n: nat, wakes: seq<Wake>, m: nat)
    requires m <= |wakes|
  {
    forall i :: 0 <= i < m && (wakes[i].Poll? || wakes[i].Beat?) ==> Valid(Found(others, own, states, n, wakes, i))
  }

  lemma FoundIsValid(others: nat -> seq<Op>, own: seq<seq<Op>>, states: seq<Db>, n: nat, wakes: seq<Wake>, m: nat)
    requires History.Behavior(states, Run(others, own)) && m <= |wakes| && n + CallsBefore(wakes, m) <= |own|
    ensures AllFoundValid(others, own, states, n, wakes, m)
  {
    forall i | 0 <= i < m && (wakes[i].Poll? || wakes[i].Beat?) ensures Valid(Found(others, own, states, n, wakes, i)) {
      CallsGrow(wakes, i + 1, m);
      SeenIsValid(others, own, states, n + CallsBefore(wakes, i));
    }
  }

  lemma {:induction false} EarlierWakesLetOn(others: nat -> seq<Op>, own: seq<seq<Op>>, states: seq<Db>, n: nat, wakes: seq<Wake>,
                                             m: nat, i: nat, id: string, claimed: nat, fence: nat)
    requires i < m <= |wakes| && AllFoundValid(others, own, states, n, wakes, m)
    requires GoesOn(others, own, states, n, wakes, m, id, claimed, fence)
    ensures LetsOn(wakes[i], Found(others, own, states, n, wakes, i), id, claimed + Beats(wakes, i), fence)
    decreases m
  {
    if i < m - 1 {
      EarlierWakesLetOn(others, own, states, n, wakes, m - 1, i, id, claimed, fence);
    } else {
      ExitIsDecided(others, own, states, n, wakes, i, id, claimed, fence);
    }
  }

  ghost predicate AllLetOn(others: nat -> seq<Op>, own: seq<seq<Op>>, states: seq<Db>, n: nat, wakes: seq<Wake>, m: nat,
                           id: string, claimed: nat, fence: nat)
    requires m <= |wakes|
  {
    forall i :: 0 <= i < m ==> LetsOn(wakes[i], Found(others, own, states, n, wakes, i), id, claimed + Beats(wakes, i), fence)
  }

  lemma AllEarlierLetOn(others: nat -> seq<Op>, own: seq<seq<Op>>, states: seq<Db>, n: nat, wakes: seq<Wake>,
                        m: nat, id: string, claimed: nat, fence: nat)
    requires m <= |wakes| && AllFoundValid(others, own, states, n, wakes, m)
    requires GoesOn(others, own, states, n, wakes, m, id, claimed, fence)
    ensures AllLetOn(others, own, states, n, wakes, m, id, claimed, fence)
  {
    forall i | 0 <= i < m
      ensures LetsOn(wakes[i], Found(others, own, states, n, wakes, i), id, claimed + Beats(wakes, i), fence)
    {
      EarlierWakesLetOn(others, own, states, n, wakes, m, i, id, claimed, fence);
    }
  }

  /** The wait as its wakes and what their calls found explain it: every wake before `m` lets it go
      on, and wake `m`, if the script has one, does not and gives the outcome. */
  ghost predicate Explained(others: nat -> seq<Op>, own: seq<seq<Op>>, states: seq<Db>, n: nat, wakes: seq<Wake>, m: nat,
                            id: string, claimed: nat, fence: nat, outcome: WaitOutcome, generation: nat)
  {
    && m <= |wakes| && AllLetOn(others, own, states, n, wakes, m, id, claimed, fence)
    && if m == |wakes| then
         outcome == StillWaiting && generation == claimed + Beats(wakes, m) && |own| == n + CallsBefore(wakes, m)
       else
         var seen := Found(others, own, states, n, wakes, m);
         && outcome != StillWaiting && |own| == n + CallsBefore(wakes, m + 1)
         && !LetsOn(wakes[m], seen, id, claimed + Beats(wakes, m), fence)
         && CausesExit(wakes[m], seen, id, claimed + Beats(wakes, m), fence, outcome, generation)
  }

  /** When and how a wait ends. Every wake before the one that ends it found no cause: no finished
      turn, no signal, no stored intent at a poll or an accepted heartbeat, no refused heartbeat.
      The one that ends it did, and the outcome says which: an intent found is the reason given. */
  lemma WaitEndsAtItsCause(others: nat -> seq<Op>, own: seq<seq<Op>>, states: seq<Db>, n: nat, wakes: seq<Wake>, m: nat,
                           id: string, claimed: nat, fence: nat, outcome: WaitOutcome, generation: nat)
    requires History.Behavior(states, Run(others, own))
    requires Waited(others, own, states, n, wakes, m, id, claimed, fence, outcome, generation)
    ensures Explained(others, own, states, n, wakes, m, id, claimed, fence, outcome, generation)
  {
    CallsOfWait(others, own, states, n, wakes, m, id, claimed, fence, outcome, generation);
    FoundIsValid(others, own, states, n, wakes, if m < |wakes| then m + 1 else m);
    WaitIsExplained(others, own, states, n, wakes, m, id, claimed, fence, outcome, generation);
  }

  lemma WaitIsExplained(others: nat -> seq<Op>, own: seq<seq<Op>>, states: seq<Db>, n: nat, wakes: seq<Wake>, m: nat,
                        id: string, claimed: nat, fence: nat, outcome: WaitOutcome, generation: nat)
    requires Waited(others, own, states, n, wakes, m, id, claimed, fence, outcome, generation)
    requires AllFoundValid(others, own, states, n, wakes, if m < |wakes| then m + 1 else m)
    ensures Explained(others, own, states, n, wakes, m, id, claimed, fence, outcome, generation)
  {
    CallsOfWait(others, own, states, n, wakes, m, id, claimed, fence, outcome, generation);
    AllEarlierLetOn(others, own, states, n, wakes, m, id, claimed, fence);
    if m < |wakes| { ExitIsDecided(others, own, states, n, wakes, m, id, claimed, fence); }
  }

  lemma CallsOfWait(others: nat -> seq<Op>, own: seq<seq<Op>>, states: seq<Db>, n: nat, wakes: seq<Wake>, m: nat,
                    id: string, claimed: nat, fence: nat, outcome: WaitOutcome, generation: nat)
    requires Waited(others, own, states, n, wakes, m, id, claimed, fence, outcome, generation)
    ensures var last := if m < |wakes| then m + 1 else m;
            m <= |wakes| && |own| == n + CallsBefore(wakes, last) && CallsBefore(wakes, m) <= CallsBefore(wakes, last)
  {
    var last := if m < |wakes| then m + 1 else m;
    CallsAreCounted(wakes, last, id, claimed, fence);
    CallsGrow(wakes, m, last);
  }

  /** The store call made for wake `i`: a poll only reads, a heartbeat presents the claimed
      generation plus one for each heartbeat before it, and asks for 90 seconds. */
  lemma {:induction false} CallsOfTheWait(wakes: seq<Wake>, m: nat, i: nat, id: string, claimed: nat, fence: nat)
    requires i < m <= |wakes| && (wakes[i].Poll? || wakes[i].Beat?)
    ensures var calls := CallsFor(wakes, m, id, claimed, fence);
            && CallsBefore(wakes, i) < |calls|
            && (wakes[i].Poll? ==> calls[CallsBefore(wakes, i)] == [])
            && (wakes[i].Beat? ==>
                  calls[CallsBefore(wakes, i)]
                  == [Op.Heartbeat(id, claimed + Beats(wakes, i), fence, wakes[i].now,
                                   if wakes[i].now + 90_000 < 0x1_0000_0000_0000_0000 then wakes[i].now + 90_000
                                   else 0xffff_ffff_ffff_ffff)])
    decreases m
  {
    CallsAreCounted(wakes, m - 1, id, claimed, fence);
    if i < m - 1 { CallsOfTheWait(wakes, m - 1, i, id, claimed, fence); }
  }

  // ---- Finishing ---------------------------------------------------------------------

  datatype ChildExit =
    | Answered(chunk: seq<Conversations.Message>, summary: string)
    | Broke(error: string)
    | Told(reason: string)

  /** A timestamp at which the holder of the row may still write. */
  predicate OpenAt(row: Delegation, at: nat) {
    row.lease.Some? && row.updated <= at < row.lease.value
  }

  /** What the row ends with when the child turn is over and nobody cancelled it. */
  function ExitOutcome(exit: ChildExit): Outcome
    requires !exit.Told?
  {
    match exit
    case Answered(_, summary) => Completed(summary)
    case Broke(error) => Failed(error)
  }

  function CancelledOp(id: string, generation: nat, fence: nat, reason: string, at: nat): Op {
    Op.Finish(id, generation, fence, Outcome.Cancelled(reason), at)
  }

  /** The child turn with its completion, or the failure alone. */
  function CommitOp(id: string, generation: nat, fence: nat, childGeneration: nat, exit: ChildExit, at: nat): Op
    requires !exit.Told?
  {
    match exit
    case Answered(chunk, summary) => Op.CompleteChild(id, generation, fence, childGeneration, chunk, summary, at)
    case Broke(error) => Op.Finish(id, generation, fence, Failed(error), at)
  }

  /** The recovery branch after the calls `before`: reload, and honour an intent under the
      authority now on the row. */
  ghost predicate Recovered(others: nat -> seq<Op>, before: seq<seq<Op>>, own: seq<seq<Op>>, states: seq<Db>,
                            id: string, later: nat, ok: bool)
  {
    var seen := SeenIn(others, own, states, |before|);
    match IntentIn(seen, id)
    case None => own == before + [[]] && !ok
    case Some(reason) =>
      var op := CancelledOp(id, seen.delegations[id].generation, seen.delegations[id].fence, reason, later);
      own == before + [[], [op]] && (ok <==> Enabled(SeenIn(others, own, states, |before| + 1), op))
  }

  /** The run of `finish_execution` after the calls `before`. */
  ghost predicate Finished(others: nat -> seq<Op>, before: seq<seq<Op>>, own: seq<seq<Op>>, states: seq<Db>,
                           id: string, generation: nat, fence: nat, childGeneration: nat, exit: ChildExit, at: nat,
                           later: nat, ok: bool)
  {
    if exit.Told? then
      var op := CancelledOp(id, generation, fence, exit.reason, at);
      own == before + [[op]] && (ok <==> Enabled(SeenIn(others, own, states, |before|), op))
    else
      match IntentIn(SeenIn(others, own, states, |before|), id)
      case Some(reason) =>
        var op := CancelledOp(id, generation, fence, reason, at);
        own == before + [[], [op]] && (ok <==> Enabled(SeenIn(others, own, states, |before| + 1), op))
      case None =>
        var op := CommitOp(id, generation, fence, childGeneration, exit, at);
        if Enabled(SeenIn(others, own, states, |before| + 1), op) then ok && own == before + [[], [op]]
        else Recovered(others, before + [[], [op]], own, states, id, later, ok)
  }

  /** One `finish` call. */
  method FinishUnder(world: World, id: string, generation: nat, fence: nat, outcome: Outcome, at: nat)
    returns (r: Result<Completion, StoreError>)
    requires world.Valid() && id in world.store.delegations
    modifies world, world.store
    ensures world.Valid() && world.Extends(old(world.own), old(world.states)) && id in world.store.delegations
    ensures world.own == old(world.own) + [[Op.Finish(id, generation, fence, outcome, at)]]
    ensures r.Ok? <==> Enabled(world.Seen(|old(world.own)|), Op.Finish(id, generation, fence, outcome, at))
  {
    ArriveAt(world, id);
    ghost var seen := world.store.Contents();
    r := world.store.Finish(id, generation, fence, outcome, at);
    world.Did(seen, Op.Finish(id, generation, fence, outcome, at));
  }

  method Commit(world: World, id: string, generation: nat, fence: nat, childGeneration: nat, exit: ChildExit, at: nat)
    returns (ok: bool)
    requires world.Valid() && id in world.store.delegations && !exit.Told?
    modifies world, world.store
    ensures world.Valid() && world.Extends(old(world.own), old(world.states)) && id in world.store.delegations
    ensures world.own == old(world.own) + [[CommitOp(id, generation, fence, childGeneration, exit, at)]]
    ensures ok <==> Enabled(world.Seen(|old(world.own)|), CommitOp(id, generation, fence, childGeneration, exit, at))
  {
    if exit.Answered? {
      ArriveAt(world, id);
      ghost var seen := world.store.Contents();
      var done := world.store.CompleteChild(id, generation, fence, childGeneration, exit.chunk, exit.summary, at);
      world.Did(seen, CommitOp(id, generation, fence, childGeneration, exit, at));
      ok := done.Ok?;
    } else {
      var done := FinishUnder(world, id, generation, fence, Failed(exit.error), at);
      ok := done.Ok?;
    }
  }

  /** One load, and the intent it shows. */
  method LoadIntent(world: World, id: string) returns (intent: Option<string>, generation: nat, fence: nat)
    requires world.Valid() && id in world.store.delegations
    modifies world, world.store
    ensures world.Valid() && world.Extends(old(world.own), old(world.states)) && id in world.store.delegations
    ensures world.own == old(world.own) + [[]]
    ensures intent == IntentIn(world.Seen(|old(world.own)|), id)
    ensures id in world.Seen(|old(world.own)|).delegations
    ensures generation == world.Seen(|old(world.own)|).delegations[id].generation
    ensures fence == world.Seen(|old(world.own)|).delegations[id].fence
  {
    ArriveAt(world, id);
    var row := world.store.delegations[id];
    world.Looked();
    return if row.status.IsRunning? then row.reason else None, row.generation, row.fence;
  }

  /** The `finish` for an intent that a load just showed. */
  method FinishLoaded(world: World, ghost before: seq<seq<Op>>, id: string, generation: nat, fence: nat, reason: string, at: nat)
    returns (r: Result<(), StoreError>)
    requires world.Valid() && id in world.store.delegations && world.own == before + [[]]
    modifies world, world.store
    ensures world.Valid() && world.Extends(old(world.own), old(world.states)) && id in world.store.delegations
    ensures world.own == before + [[], [CancelledOp(id, generation, fence, reason, at)]]
    ensures world.Seen(|before|) == old(world.Seen(|before|))
    ensures r.Ok? <==> Enabled(world.Seen(|before| + 1), CancelledOp(id, generation, fence, reason, at))
  {
    ghost var own, states := world.own, world.states;
    var told := FinishUnder(world, id, generation, fence, Outcome.Cancelled(reason), at);
    world.Kept(own, states, |before|);
    return if told.Ok? then Ok(()) else Err(told.error);
  }

  method Recover(world: World, id: string, later: nat) returns (r: Result<(), StoreError>)
    requires world.Valid() && id in world.store.delegations
    modifies world, world.store
    ensures world.Valid() && world.Extends(old(world.own), old(world.states)) && id in world.store.delegations
    ensures Recovered(world.others, old(world.own), world.own, world.states, id, later, r.Ok?)
  {
    ghost var before := world.own;
    var intent, generation, fence := LoadIntent(world, id);
    if intent.None? { return Err(Invalid); }
    r := FinishLoaded(world, before, id, generation, fence, intent.value, later);
  }

  /** Recovery after the load and the refused commit, which are not affected by it. */
  method RecoverAfter(world: World, ghost before: seq<seq<Op>>, ghost op: Op, id: string, later: nat)
    returns (r: Result<(), StoreError>)
    requires world.Valid() && id in world.store.delegations && world.own == before + [[], [op]]
    modifies world, world.store
    ensures world.Valid() && world.Extends(old(world.own), old(world.states)) && id in world.store.delegations
    ensures Recovered(world.others, before + [[], [op]], world.own, world.states, id, later, r.Ok?)
    ensures world.Seen(|before|) == old(world.Seen(|before|)) && world.Seen(|before| + 1) == old(world.Seen(|before| + 1))
  {
    ghost var own, states := world.own, world.states;
    r := Recover(world, id, later);
    world.Kept(own, states, |before|);
    world.Kept(own, states, |before| + 1);
  }

  /** The commit once no intent was found, and the recovery if it is refused. */
  method CommitOrRecover(world: World, ghost before: seq<seq<Op>>, id: string, generation: nat, fence: nat,
                         childGeneration: nat, exit: ChildExit, at: nat, later: nat)
    returns (r: Result<(), StoreError>)
    requires world.Valid() && id in world.store.delegations && !exit.Told?
    requires world.own == before + [[]] && IntentIn(world.Seen(|before|), id).None?
    modifies world, world.store
    ensures world.Valid() && world.Extends(old(world.own), old(world.states)) && id in world.store.delegations
    ensures Finished(world.others, before, world.own, world.states, id, generation, fence, childGeneration, exit, at, later, r.Ok?)
  {
    ghost var own, states := world.own, world.states;
    ghost var op := CommitOp(id, generation, fence, childGeneration, exit, at);
    var ok := Commit(world, id, generation, fence, childGeneration, exit, at);
    world.Kept(own, states, |before|);
    assert world.own == before + [[], [op]];
    if ok {
      r := Ok(());
    } else {
      r := RecoverAfter(world, before, op, id, later);
    }
    CommittedOrRecovered(world.others, before, world.own, world.states, id, generation, fence, childGeneration, exit, at,
                         later, r.Ok?, ok, op);
  }

  lemma CommittedOrRecovered(others: nat -> seq<Op>, before: seq<seq<Op>>, own: seq<seq<Op>>, states: seq<Db>,
                             id: string, generation: nat, fence: nat, childGeneration: nat, exit: ChildExit, at: nat,
                             later: nat, ok: bool, committed: bool, op: Op)
    requires !exit.Told? && op == CommitOp(id, generation, fence, childGeneration, exit, at)
    requires IntentIn(SeenIn(others, own, states, |before|), id).None?
    requires committed <==> Enabled(SeenIn(others, own, states, |before| + 1), op)
    requires committed ==> ok && own == before + [[], [op]]
    requires !committed ==> Recovered(others, before + [[], [op]], own, states, id, later, ok)
    ensures Finished(others, before, own, states, id, generation, fence, childGeneration, exit, at, later, ok)
  {
  }

  /** The finish of a turn that came to its own end. */
  method FinishOver(world: World, id: string, generation: nat, fence: nat, childGeneration: nat, exit: ChildExit, at: nat, later: nat)
    returns (r: Result<(), StoreError>)
    requires world.Valid() && id in world.store.delegations && !exit.Told?
    modifies world, world.store
    ensures world.Valid() && world.Extends(old(world.own), old(world.states)) && id in world.store.delegations
    ensures Finished(world.others, old(world.own), world.own, world.states, id, generation, fence, childGeneration, exit,
                     at, later, r.Ok?)
  {
    ghost var before := world.own;
    var intent, _, _ := LoadIntent(world, id);
    if intent.None? {
      r := CommitOrRecover(world, before, id, generation, fence, childGeneration, exit, at, later);
    } else {
      r := FinishLoaded(world, before, id, generation, fence, intent.value, at);
      FinishedForIntent(world.others, before, world.own, world.states, id, generation, fence, childGeneration, exit, at, later, r.Ok?);
    }
  }

  lemma FinishedForIntent(others: nat -> seq<Op>, before: seq<seq<Op>>, own: seq<seq<Op>>, states: seq<Db>, id: string,
                          generation: nat, fence: nat, childGeneration: nat, exit: ChildExit, at: nat, later: nat, ok: bool)
    requires !exit.Told? && IntentIn(SeenIn(others, own, states, |before|), id).Some?
    requires var op := CancelledOp(id, generation, fence, IntentIn(SeenIn(others, own, states, |before|), id).value, at);
             own == before + [[], [op]] && (ok <==> Enabled(SeenIn(others, own, states, |before| + 1), op))
    ensures Finished(others, before, own, states, id, generation, fence, childGeneration, exit, at, later, ok)
  {
  }

  /** `finish_execution`: exactly the store calls of the source, each succeeding exactly when the
      store can carry it out at that moment. */
  method FinishExecution(world: World, id: string, generation: nat, fence: nat, childGeneration: nat, exit: ChildExit,
                         at: nat, later: nat)
    returns (r: Result<(), StoreError>)
    requires world.Valid() && id in world.store.delegations
    modifies world, world.store
    ensures world.Valid() && world.Extends(old(world.own), old(world.states)) && id in world.store.delegations
    ensures Finished(world.others, old(world.own), world.own, world.states, id, generation, fence, childGeneration, exit,
                     at, later, r.Ok?)
  {
    if exit.Told? {
      var told := FinishUnder(world, id, generation, fence, Outcome.Cancelled(exit.reason), at);
      r := if told.Ok? then Ok(()) else Err(told.error);
    } else {
      r := FinishOver(world, id, generation, fence, childGeneration, exit, at, later);
    }
  }

  // ---- What a finish achieves --------------------------------------------------------

  /** The row stands ended with `outcome`. */
  predicate EndedAs(db: Db, id: string, outcome: Outcome) {
    id in db.delegations && db.delegations[id].Over() && db.delegations[id].terminal == Some(outcome)
  }

  predicate EndsWith(op: Op, id: string, outcome: Outcome) {
    || (op.Finish? && op.id == id && op.outcome == outcome)
    || (op.CompleteChild? && op.id == id && outcome == Completed(op.summary))
  }

  lemma LastCallEnds(others: nat -> seq<Op>, own: seq<seq<Op>>, states: seq<Db>, op: Op, id: string, outcome: Outcome)
    requires History.Behavior(states, Run(others, own)) && own != [] && own[|own| - 1] == [op]
    requires EndsWith(op, id, outcome) && Enabled(SeenIn(others, own, states, |own| - 1), op)
    ensures EndedAs(states[|states| - 1], id, outcome)
  {
    CallIsStep(others, own, states, |own| - 1);
  }

  /** What a finish that succeeded ended the row with. */
  ghost function FinishOutcome(others: nat -> seq<Op>, before: seq<seq<Op>>, own: seq<seq<Op>>, states: seq<Db>,
                               id: string, generation: nat, fence: nat, childGeneration: nat, exit: ChildExit, at: nat): Outcome
  {
    if exit.Told? then Outcome.Cancelled(exit.reason)
    else match IntentIn(SeenIn(others, own, states, |before|), id)
      case Some(reason) => Outcome.Cancelled(reason)
      case None =>
        if Enabled(SeenIn(others, own, states, |before| + 1), CommitOp(id, generation, fence, childGeneration, exit, at))
        then ExitOutcome(exit)
        else Outcome.Cancelled(IntentIn(SeenIn(others, own, states, |before| + 2), id).GetOr(""))
  }

  lemma RecoveredEnds(others: nat -> seq<Op>, before: seq<seq<Op>>, own: seq<seq<Op>>, states: seq<Db>, id: string, later: nat)
    requires History.Behavior(states, Run(others, own))
    requires Recovered(others, before, own, states, id, later, true)
    ensures IntentIn(SeenIn(others, own, states, |before|), id).Some?
    ensures EndedAs(states[|states| - 1], id, Outcome.Cancelled(IntentIn(SeenIn(others, own, states, |before|), id).value))
  {
    var seen := SeenIn(others, own, states, |before|);
    var op := own[|own| - 1][0];
    LastCallEnds(others, own, states, op, id, Outcome.Cancelled(IntentIn(seen, id).value));
  }

  /** A finish that succeeds has ended the row, with the outcome its store calls decided. Whenever
      an intent was durable on the row, before, during or after the check, that is how it ended. */
  lemma FinishedIsOver(others: nat -> seq<Op>, before: seq<seq<Op>>, own: seq<seq<Op>>, states: seq<Db>,
                       id: string, generation: nat, fence: nat, childGeneration: nat, exit: ChildExit, at: nat, later: nat)
    requires History.Behavior(states, Run(others, own))
    requires Finished(others, before, own, states, id, generation, fence, childGeneration, exit, at, later, true)
    ensures EndedAs(states[|states| - 1], id,
                    FinishOutcome(others, before, own, states, id, generation, fence, childGeneration, exit, at))
    ensures forall i :: 0 <= i < |states| && IntentIn(states[i], id).Some? ==>
              EndedAs(states[|states| - 1], id, Outcome.Cancelled(IntentIn(states[i], id).value))
  {
    FinishEnds(others, before, own, states, id, generation, fence, childGeneration, exit, at, later);
    forall i | 0 <= i < |states| && IntentIn(states[i], id).Some?
      ensures EndedAs(states[|states| - 1], id, Outcome.Cancelled(IntentIn(states[i], id).value))
    {
      History.CancellationIsSticky(states, Run(others, own), i, |states| - 1, id);
    }
  }

  lemma FinishEnds(others: nat -> seq<Op>, before: seq<seq<Op>>, own: seq<seq<Op>>, states: seq<Db>,
                   id: string, generation: nat, fence: nat, childGeneration: nat, exit: ChildExit, at: nat, later: nat)
    requires History.Behavior(states, Run(others, own))
    requires Finished(others, before, own, states, id, generation, fence, childGeneration, exit, at, later, true)
    ensures EndedAs(states[|states| - 1], id,
                    FinishOutcome(others, before, own, states, id, generation, fence, childGeneration, exit, at))
  {
    if exit.Told? {
      var op := CancelledOp(id, generation, fence, exit.reason, at);
      assert own == before + [[op]];
      LastCallEnds(others, own, states, op, id, Outcome.Cancelled(exit.reason));
    } else {
      var intent := IntentIn(SeenIn(others, own, states, |before|), id);
      var op := CommitOp(id, generation, fence, childGeneration, exit, at);
      if intent.Some? {
        LastCallEnds(others, own, states, CancelledOp(id, generation, fence, intent.value, at), id, Outcome.Cancelled(intent.value));
      } else {
        CommitEnds(others, before, own, states, id, exit, op, later);
      }
    }
  }

  lemma CommitEnds(others: nat -> seq<Op>, before: seq<seq<Op>>, own: seq<seq<Op>>, states: seq<Db>, id: string, exit: ChildExit,
                   op: Op, later: nat)
    requires History.Behavior(states, Run(others, own)) && !exit.Told? && EndsWith(op, id, ExitOutcome(exit))
    requires if Enabled(SeenIn(others, own, states, |before| + 1), op) then own == before + [[], [op]]
             else Recovered(others, before + [[], [op]], own, states, id, later, true)
    ensures EndedAs(states[|states| - 1], id,
                    if Enabled(SeenIn(others, own, states, |before| + 1), op) then ExitOutcome(exit)
                    else Outcome.Cancelled(IntentIn(SeenIn(others, own, states, |before| + 2), id).GetOr("")))
  {
    if Enabled(SeenIn(others, own, states, |before| + 1), op) {
      LastCallEnds(others, own, states, op, id, ExitOutcome(exit));
    } else {
      RecoveredEnds(others, before + [[], [op]], own, states, id, later);
    }
  }

  /** Between two calls the second of which is the next, only the others act. */
  lemma QuietBetween(others: nat -> seq<Op>, own: seq<seq<Op>>, states: seq<Db>, i: nat, id: string)
    requires History.Behavior(states, Run(others, own)) && i < |own| && Quiet(others(i), id)
    requires |Woven(others, own, i)| < |states| && Running(states[|Woven(others, own, i)|], id)
    ensures Running(SeenIn(others, own, states, i), id)
    ensures SameAuthority(states[|Woven(others, own, i)|].delegations[id], SeenIn(others, own, states, i).delegations[id])
  {
    var a, b := |Woven(others, own, i)|, Position(others, own, i);
    WovenGrows(others, own, i, |own|);
    forall k | a <= k < b ensures !Disturbs(Run(others, own)[k], id) {
      OthersInPlace(others, own, i, k);
    }
    QuietRun(states, Run(others, own), a, b, id);
  }

  /** An intent under which the row is still the worker's forbids the commit. */
  lemma IntentForbidsCommit(db: Db, id: string, generation: nat, fence: nat, childGeneration: nat, exit: ChildExit, at: nat)
    requires IntentIn(db, id).Some? && !exit.Told?
    ensures !Enabled(db, CommitOp(id, generation, fence, childGeneration, exit, at))
  {
  }

  /** An intent that slips in between the check and the commit defeats the commit, and the
      recovery branch then ends the row for that intent, if the lease is still open and nobody
      else touches it. */
  lemma LateIntentIsHonoured(others: nat -> seq<Op>, before: seq<seq<Op>>, own: seq<seq<Op>>, states: seq<Db>,
                             id: string, generation: nat, fence: nat, childGeneration: nat, exit: ChildExit, at: nat, later: nat,
                             ok: bool)
    requires History.Behavior(states, Run(others, own)) && !exit.Told?
    requires Finished(others, before, own, states, id, generation, fence, childGeneration, exit, at, later, ok)
    requires IntentIn(SeenIn(others, own, states, |before|), id).None?
    requires var seen := SeenIn(others, own, states, |before| + 1);
             && IntentIn(seen, id).Some?
             && OpenAt(seen.delegations[id], later) && seen.delegations[id].generation < MAX_I64
    requires Quiet(others(|before| + 2), id) && Quiet(others(|before| + 3), id)
    ensures ok && EndedAs(states[|states| - 1], id,
                          Outcome.Cancelled(IntentIn(SeenIn(others, own, states, |before| + 1), id).value))
  {
    var n := |before|;
    var seen := SeenIn(others, own, states, n + 1);
    var op := CommitOp(id, generation, fence, childGeneration, exit, at);
    IntentForbidsCommit(seen, id, generation, fence, childGeneration, exit, at);
    assert Recovered(others, before + [[], [op]], own, states, id, later, ok);
    RefusedThenReloaded(others, before, own, states, id, op);
    ReloadedThenFinish(others, own, states, n + 2, id);
    HolderMayFinish(SeenIn(others, own, states, n + 3), seen, id, later);
    RecoveredEnds(others, before + [[], [op]], own, states, id, later);
  }

  /** From a load that shows an intent to the next call, nothing happens to the row. */
  lemma ReloadedThenFinish(others: nat -> seq<Op>, own: seq<seq<Op>>, states: seq<Db>, i: nat, id: string)
    requires History.Behavior(states, Run(others, own)) && i + 1 < |own| && own[i] == [] && Quiet(others(i + 1), id)
    requires Position(others, own, i) < |states| && IntentIn(SeenIn(others, own, states, i), id).Some?
    ensures var seen, again := SeenIn(others, own, states, i), SeenIn(others, own, states, i + 1);
            id in again.delegations && again.delegations[id] == seen.delegations[id]
  {
    assert |Woven(others, own, i + 1)| == Position(others, own, i);
    QuietBetween(others, own, states, i + 1, id);
  }

  /** The refused commit and the reload after it leave the row with its intent as it was. */
  lemma RefusedThenReloaded(others: nat -> seq<Op>, before: seq<seq<Op>>, own: seq<seq<Op>>, states: seq<Db>, id: string, op: Op)
    requires History.Behavior(states, Run(others, own)) && before + [[], [op]] <= own && |own| > |before| + 2
    requires Quiet(others(|before| + 2), id)
    requires var seen := SeenIn(others, own, states, |before| + 1); IntentIn(seen, id).Some? && !Enabled(seen, op)
    ensures var seen, again := SeenIn(others, own, states, |before| + 1), SeenIn(others, own, states, |before| + 2);
            && Valid(seen) && id in again.delegations && again.delegations[id] == seen.delegations[id]
            && Position(others, own, |before| + 2) < |states|
            && states[Position(others, own, |before| + 2)] == again
  {
    var n := |before|;
    assert own[n + 1] == [op];
    CallIsStep(others, own, states, n + 1);
    assert states[|Woven(others, own, n + 2)|] == SeenIn(others, own, states, n + 1);
    QuietBetween(others, own, states, n + 2, id);
    WovenGrows(others, own, n + 2, |own|);
  }

  lemma HolderMayFinish(db: Db, before: Db, id: string, at: nat)
    requires Valid(before) && IntentIn(before, id).Some? && OpenAt(before.delegations[id], at)
    requires before.delegations[id].generation < MAX_I64
    requires id in db.delegations && db.delegations[id] == before.delegations[id]
    ensures var row := before.delegations[id];
            Enabled(db, CancelledOp(id, row.generation, row.fence, row.reason.value, at))
  {
    History.LawfulAt(before, id);
  }

  /** `execute_claim` after the claim: wait, then finish under the generation the wait ended
      with. A lost lease ends it without a further call, leaving the row to the reconciler. */
  method ExecuteClaim(world: World, id: string, claimed: nat, fence: nat, childGeneration: nat, wakes: seq<Wake>,
                      turn: ChildExit, at: nat, later: nat)
    returns (r: Result<(), StoreError>, outcome: WaitOutcome, generation: nat, ghost m: nat,
             ghost own: seq<seq<Op>>, ghost states: seq<Db>)
    requires world.Valid() && id in world.store.delegations && !turn.Told?
    modifies world, world.store
    ensures world.Valid() && old(world.own) <= own <= world.own
    ensures states <= world.states && |states| == |Run(world.others, own)| + 1
    ensures Waited(world.others, own, states, |old(world.own)|, wakes, m, id, claimed, fence, outcome, generation)
    ensures outcome.LostLease? || outcome.StillWaiting? ==> r.Err? && world.own == own && world.states == states
    ensures outcome.Over? || outcome.Stopped? ==>
              Finished(world.others, own, world.own, world.states, id, generation, fence, childGeneration,
                       if outcome.Over? then turn else Told(outcome.reason), at, later, r.Ok?)
  {
    outcome, generation, m := Wait(world, id, claimed, fence, wakes);
    own, states := world.own, world.states;
    if outcome.LostLease? || outcome.StillWaiting? { return Err(Invalid), outcome, generation, m, own, states; }
    var exit := if outcome.Over? then turn else Told(outcome.reason);
    r := FinishExecution(world, id, generation, fence, childGeneration, exit, at, later);
  }

  /** Calls `k` and `k + 1` are a load that found this reason and the finish for it. */
  ghost predicate FinishesFor(others: nat -> seq<Op>, own: seq<seq<Op>>, states: seq<Db>, k: nat, id: string, generation: nat,
                              fence: nat, reason: string, at: nat, ok: bool)
  {
    && |own| == k + 2 && own[k] == [] && own[k + 1] == [Op.Finish(id, generation, fence, Outcome.Cancelled(reason), at)]
    && (ok <==> Progress.CanFinish(SeenIn(others, own, states, k + 1), id, generation, fence, Outcome.Cancelled(reason), at))
  }

  /** The commit of a turn that came to its own end, made by call `k`, can be carried out there. */
  ghost predicate CanCommit(db: Db, id: string, generation: nat, fence: nat, childGeneration: nat, exit: ChildExit, at: nat) {
    match exit
    case Answered(chunk, _) => Progress.CanComplete(db, id, generation, fence, childGeneration, chunk, at)
    case Broke(error) => Progress.CanFinish(db, id, generation, fence, Failed(error), at)
    case Told(_) => false
  }

  /** After a refused commit, from call `k` on: a load, and for a reason it finds a finish under the
      authority now on the row. */
  ghost predicate RecoversFrom(others: nat -> seq<Op>, own: seq<seq<Op>>, states: seq<Db>, k: nat, id: string, later: nat, ok: bool) {
    var found := SeenIn(others, own, states, k);
    && (NotAsked(found, id) ==> |own| == k + 1 && own[k] == [] && !ok)
    && (forall reason :: AskedToStop(found, id, reason) ==>
          FinishesFor(others, own, states, k, id, found.delegations[id].generation, found.delegations[id].fence, reason, later, ok))
  }

  /** The calls of a finish and when it succeeds, on the columns of the rows its calls found. */
  ghost predicate FinishesSo(others: nat -> seq<Op>, n: nat, own: seq<seq<Op>>, states: seq<Db>, id: string, generation: nat,
                             fence: nat, childGeneration: nat, exit: ChildExit, at: nat, later: nat, ok: bool)
  {
    match exit
    case Told(reason) =>
      && |own| == n + 1 && own[n] == [Op.Finish(id, generation, fence, Outcome.Cancelled(reason), at)]
      && (ok <==> Progress.CanFinish(SeenIn(others, own, states, n), id, generation, fence, Outcome.Cancelled(reason), at))
    case _ =>
      var checked := SeenIn(others, own, states, n);
      && (forall reason :: AskedToStop(checked, id, reason) ==>
            FinishesFor(others, own, states, n, id, generation, fence, reason, at, ok))
      && (NotAsked(checked, id) ==>
            && n + 1 < |own| && own[n] == []
            && own[n + 1] == [match exit
                              case Answered(chunk, summary) =>
                                Op.CompleteChild(id, generation, fence, childGeneration, chunk, summary, at)
                              case Broke(error) => Op.Finish(id, generation, fence, Failed(error), at)
                              case Told(reason) => Op.Finish(id, generation, fence, Outcome.Cancelled(reason), at)]
            && if CanCommit(SeenIn(others, own, states, n + 1), id, generation, fence, childGeneration, exit, at)
               then ok && |own| == n + 2
               else RecoversFrom(others, own, states, n + 2, id, later, ok))
  }

  lemma IntentMeans(db: Db, id: string)
    requires Valid(db)
    ensures IntentIn(db, id).None? <==> NotAsked(db, id)
    ensures forall reason :: IntentIn(db, id) == Some(reason) <==> AskedToStop(db, id, reason)
  {
    if id in db.delegations { History.LawfulAt(db, id); }
  }

  lemma RecoveryIsExact(others: nat -> seq<Op>, before: seq<seq<Op>>, own: seq<seq<Op>>, states: seq<Db>, id: string, later: nat, ok: bool)
    requires Recovered(others, before, own, states, id, later, ok) && Valid(SeenIn(others, own, states, |before|))
    requires |own| == |before| + 2 ==> Valid(SeenIn(others, own, states, |before| + 1))
    ensures RecoversFrom(others, own, states, |before|, id, later, ok)
  {
    var found := SeenIn(others, own, states, |before|);
    IntentMeans(found, id);
    if IntentIn(found, id).Some? {
      Progress.FinishMeans(SeenIn(others, own, states, |before| + 1), id, found.delegations[id].generation, found.delegations[id].fence,
                           Outcome.Cancelled(IntentIn(found, id).value), later);
    }
  }

  ghost predicate AllSeenValid(others: nat -> seq<Op>, own: seq<seq<Op>>, states: seq<Db>) {
    forall i :: 0 <= i < |own| ==> Valid(SeenIn(others, own, states, i))
  }

  lemma EveryCallSeesSoundness(others: nat -> seq<Op>, own: seq<seq<Op>>, states: seq<Db>)
    requires History.Behavior(states, Run(others, own))
    ensures AllSeenValid(others, own, states)
  {
    forall i | 0 <= i < |own| ensures Valid(SeenIn(others, own, states, i)) { SeenIsValid(others, own, states, i); }
  }

  lemma CommitMeans(db: Db, id: string, generation: nat, fence: nat, childGeneration: nat, exit: ChildExit, at: nat)
    requires Valid(db) && !exit.Told?
    ensures Enabled(db, CommitOp(id, generation, fence, childGeneration, exit, at))
            <==> CanCommit(db, id, generation, fence, childGeneration, exit, at)
  {
    match exit
    case Answered(chunk, summary) => Progress.CompleteMeans(db, id, generation, fence, childGeneration, chunk, summary, at);
    case Broke(error) => Progress.FinishMeans(db, id, generation, fence, Failed(error), at);
  }

  /** When a finish succeeds: told to stop, if and only if that reason is on the row and the worker is
      in charge; else, for a reason the check finds, likewise; else if and only if the commit can be
      carried out on the state it finds, or the recovery finds a reason and the row can be ended so. */
  lemma FinishIsExact(others: nat -> seq<Op>, before: seq<seq<Op>>, own: seq<seq<Op>>, states: seq<Db>, id: string, generation: nat,
                      fence: nat, childGeneration: nat, exit: ChildExit, at: nat, later: nat, ok: bool)
    requires History.Behavior(states, Run(others, own))
    requires Finished(others, before, own, states, id, generation, fence, childGeneration, exit, at, later, ok)
    ensures FinishesSo(others, |before|, own, states, id, generation, fence, childGeneration, exit, at, later, ok)
  {
    EveryCallSeesSoundness(others, own, states);
    FinishIsSo(others, before, own, states, id, generation, fence, childGeneration, exit, at, later, ok);
  }

  lemma FinishIsSo(others: nat -> seq<Op>, before: seq<seq<Op>>, own: seq<seq<Op>>, states: seq<Db>, id: string, generation: nat,
                   fence: nat, childGeneration: nat, exit: ChildExit, at: nat, later: nat, ok: bool)
    requires AllSeenValid(others, own, states)
    requires Finished(others, before, own, states, id, generation, fence, childGeneration, exit, at, later, ok)
    ensures FinishesSo(others, |before|, own, states, id, generation, fence, childGeneration, exit, at, later, ok)
  {
    if exit.Told? {
      Progress.FinishMeans(SeenIn(others, own, states, |before|), id, generation, fence, Outcome.Cancelled(exit.reason), at);
    } else {
      IntentMeans(SeenIn(others, own, states, |before|), id);
      var intent := IntentIn(SeenIn(others, own, states, |before|), id);
      if intent.Some? {
        Progress.FinishMeans(SeenIn(others, own, states, |before| + 1), id, generation, fence, Outcome.Cancelled(intent.value), at);
      } else {
        CommitIsSo(others, before, own, states, id, generation, fence, childGeneration, exit, at, later, ok);
      }
    }
  }

  lemma CommitIsSo(others: nat -> seq<Op>, before: seq<seq<Op>>, own: seq<seq<Op>>, states: seq<Db>, id: string, generation: nat,
                   fence: nat, childGeneration: nat, exit: ChildExit, at: nat, later: nat, ok: bool)
    requires AllSeenValid(others, own, states) && !exit.Told? && IntentIn(SeenIn(others, own, states, |before|), id).None?
    requires Finished(others, before, own, states, id, generation, fence, childGeneration, exit, at, later, ok)
    ensures FinishesSo(others, |before|, own, states, id, generation, fence, childGeneration, exit, at, later, ok)
  {
    var n, op := |before|, CommitOp(id, generation, fence, childGeneration, exit, at);
    IntentMeans(SeenIn(others, own, states, n), id);
    CommitMeans(SeenIn(others, own, states, n + 1), id, generation, fence, childGeneration, exit, at);
    if !Enabled(SeenIn(others, own, states, n + 1), op) {
      RecoveryIsExact(others, before + [[], [op]], own, states, id, later, ok);
    }
  }

  /** The child's conversation as the end of the run leaves it, against what `seen` had. */
  predicate ChildGained(seen: Db, last: Db, id: string, chunk: seq<Conversations.Message>) {
    && id in seen.delegations && seen.delegations[id].spec.child in seen.sessions && seen.delegations[id].spec.child in last.sessions
    && last.sessions[seen.delegations[id].spec.child].messages
       == seen.sessions[seen.delegations[id].spec.child].messages + chunk
  }

  /** What a finish that succeeds leaves, by what the child turn came to. A worker told to stop
      leaves that reason. One that broke leaves its error, one that answered its summary, with the
      turn appended to the child by the same step, unless the row is `Cancelled`. */
  lemma WhatAFinishLeaves(others: nat -> seq<Op>, before: seq<seq<Op>>, own: seq<seq<Op>>, states: seq<Db>,
                          id: string, generation: nat, fence: nat, childGeneration: nat, exit: ChildExit, at: nat, later: nat)
    requires History.Behavior(states, Run(others, own))
    requires Finished(others, before, own, states, id, generation, fence, childGeneration, exit, at, later, true)
    ensures var last := states[|states| - 1];
            && id in last.delegations && last.delegations[id].terminal.Some?
            && var ended := last.delegations[id].terminal.value;
               match exit
               case Told(reason) => ended == Outcome.Cancelled(reason)
               case Broke(error) => ended == Failed(error) || ended.Cancelled?
               case Answered(chunk, summary) =>
                 || (ended == Completed(summary) && ChildGained(SeenIn(others, own, states, |before| + 1), last, id, chunk))
                 || ended.Cancelled?
  {
    FinishEnds(others, before, own, states, id, generation, fence, childGeneration, exit, at, later);
    if exit.Answered? && IntentIn(SeenIn(others, own, states, |before|), id).None? {
      var op := CommitOp(id, generation, fence, childGeneration, exit, at);
      if Enabled(SeenIn(others, own, states, |before| + 1), op) {
        assert own == before + [[], [op]];
        CommitExtendsChild(others, own, states, op, id);
      }
    }
  }

  lemma CommitExtendsChild(others: nat -> seq<Op>, own: seq<seq<Op>>, states: seq<Db>, op: Op, id: string)
    requires History.Behavior(states, Run(others, own)) && own != [] && own[|own| - 1] == [op]
    requires op.CompleteChild? && op.id == id && Enabled(SeenIn(others, own, states, |own| - 1), op)
    ensures ChildGained(SeenIn(others, own, states, |own| - 1), states[|states| - 1], id, op.chunk)
  {
    CallIsStep(others, own, states, |own| - 1);
  }

  // ---- What no interleaving can do ---------------------------------------------------

  /** The child turn is never appended once an intent is on the row, whoever tries. */
  lemma NoChildTurnAfterIntent(states: seq<Db>, ops: seq<Op>, i: nat, j: nat, id: string)
    requires History.Behavior(states, ops) && i <= j < |ops|
    requires id in states[i].delegations
    requires states[i].delegations[id].status.IsRunning? && states[i].delegations[id].reason.Some?
    requires ops[j].CompleteChild? && ops[j].id == id
    ensures !History.Accepted(states, ops, j) && states[j + 1] == states[j]
  {
    History.CancellationIsSticky(states, ops, i, j, id);
    assert History.StepAt(states, ops, j);
  }

  /** The stale-timestamp path: the worker's `finish` for a stored intent is refused exactly when
      the intent is stamped after the worker's own clock reading; the row then stays running,
      and when the lease passes, the reconciler ends it `Cancelled` for that intent. */
  lemma StaleFinishThenExpiry(db: Db, id: string, at: nat, now: nat, next: Db)
    requires Valid(db) && IntentIn(db, id).Some? && db.delegations[id].generation < MAX_I64
    requires at < db.delegations[id].lease.GetOr(0) <= now <= MAX_I64
    requires Enabled(db, Op.ReconcileExpired(now)) && Next(db, Op.ReconcileExpired(now), next)
    ensures var row := db.delegations[id];
            Enabled(db, CancelledOp(id, row.generation, row.fence, row.reason.value, at)) <==> row.updated <= at
    ensures EndedAs(next, id, Outcome.Cancelled(db.delegations[id].reason.value))
  {
    FinishNeedsAFreshClock(db, id, at);
    Invariance.NextKeepsValid(db, Op.ReconcileExpired(now), next);
    History.ExpiryIsComplete(db, now, next, id);
    History.LawfulAt(next, id);
  }

  lemma FinishNeedsAFreshClock(db: Db, id: string, at: nat)
    requires Valid(db) && IntentIn(db, id).Some? && db.delegations[id].generation < MAX_I64
    requires at < db.delegations[id].lease.GetOr(0)
    ensures var row := db.delegations[id];
            Enabled(db, CancelledOp(id, row.generation, row.fence, row.reason.value, at)) <==> row.updated <= at
  {
    History.LawfulAt(db, id);
  }
}
