/** The shared database as one process sees it: everybody else's operations take effect between
    its own store calls, and a ghost log keeps the whole run. */
module Worlds {
  import opened Basics
  import opened Tables
  import opened Protocol
  import opened Stores
  import History

  /** One operation by somebody else. */
  method Perform(store: Store, op: Op)
    requires Valid(store.Contents())
    modifies store
    ensures Valid(store.Contents()) && Next(old(store.Contents()), op, store.Contents())
  {
    match op
    case CreateSession(config) => var _ := store.CreateSession(config);
    case Append(session, generation, chunk) => var _ := store.Append(session, generation, chunk);
    case Create(spec, now) => var _ := store.Create(spec, now);
    case CreateWithChild(config, spec, now) => var _ := store.CreateWithChild(config, spec, now);
    case Claim(id, generation, worker, now, deadline) => var _ := store.Claim(id, generation, worker, now, deadline);
    case Heartbeat(id, generation, fence, now, deadline) =>
      var _ := store.Heartbeat(id, generation, fence, now, deadline);
    case Cancel(id, generation, reason, at) => var _ := store.Cancel(id, generation, reason, at);
    case Finish(id, generation, fence, outcome, at) => var _ := store.Finish(id, generation, fence, outcome, at);
    case CompleteChild(id, generation, fence, childGeneration, chunk, summary, at) =>
      var _ := store.CompleteChild(id, generation, fence, childGeneration, chunk, summary, at);
    case ReconcileExpired(now) => var _ := store.ReconcileExpired(now);
    case ReconcileRunning(reason, now) => var _ := store.ReconcileRunning(reason, now);
    case ClaimCompletion(event, claim, now, expires) => var _ := store.ClaimCompletion(event, claim, now, expires);
    case AcknowledgeCompletion(event, claim, at) => var _ := store.AcknowledgeCompletion(event, claim, at);
    case ReleaseCompletion(event, claim) => var _ := store.ReleaseCompletion(event, claim);
    case StartTurn(turn, session, prompt, providerPrompt, generation, claims, at) =>
      var _ := store.StartTurn(turn, session, prompt, providerPrompt, generation, claims, at);
    case CompleteTurn(turn, generation, chunk, at) => var _ := store.CompleteTurn(turn, generation, chunk, at);
    case TerminateTurn(turn, generation, outcome, at) => var _ := store.TerminateTurn(turn, generation, outcome, at);
    case ReconcileTurns(reason, at) => var _ := store.ReconcileTurns(reason, at);
  }

  /** The first `n` calls of a run as a list of operations: before call `i` the others perform
      `others(i)`, then the process performs `own[i]`, which is empty when it only reads. */
  function Woven(others: nat -> seq<Op>, own: seq<seq<Op>>, n: nat): seq<Op>
    requires n <= |own|
  {
    if n == 0 then [] else Woven(others, own, n - 1) + others(n - 1) + own[n - 1]
  }

  function Run(others: nat -> seq<Op>, own: seq<seq<Op>>): seq<Op> {
    Woven(others, own, |own|)
  }

  /** Where in the run call `i` finds the database. */
  function Position(others: nat -> seq<Op>, own: seq<seq<Op>>, i: nat): nat
    requires i <= |own|
  {
    |Woven(others, own, i)| + |others(i)|
  }

  lemma {:induction false} WovenSame(others: nat -> seq<Op>, own: seq<seq<Op>>, own': seq<seq<Op>>, n: nat)
    requires n <= |own| && own <= own'
    ensures Woven(others, own', n) == Woven(others, own, n)
  {
    if n > 0 {
      WovenSame(others, own, own', n - 1);
      assert own'[n - 1] == own[n - 1];
    }
  }

  lemma WovenSnoc(others: nat -> seq<Op>, own: seq<seq<Op>>, last: seq<Op>)
    ensures Run(others, own + [last]) == Run(others, own) + others(|own|) + last
    ensures Position(others, own + [last], |own|) == |Run(others, own)| + |others(|own|)|
  {
    WovenSame(others, own, own + [last], |own|);
  }

  lemma {:induction false} WovenGrows(others: nat -> seq<Op>, own: seq<seq<Op>>, i: nat, n: nat)
    requires i <= n <= |own|
    ensures Woven(others, own, i) <= Woven(others, own, n)
    ensures i < n ==> Position(others, own, i) <= |Woven(others, own, n)|
    decreases n
  {
    if i < n {
      WovenGrows(others, own, i, n - 1);
    }
  }

  function SeenIn(others: nat -> seq<Op>, own: seq<seq<Op>>, states: seq<Db>, i: nat): Db {
    if i < |own| && Position(others, own, i) < |states| then states[Position(others, own, i)] else EMPTY
  }

  /** What a call saw is not affected by later ones. */
  lemma SeenStays(others: nat -> seq<Op>, own: seq<seq<Op>>, states: seq<Db>, own': seq<seq<Op>>, states': seq<Db>, i: nat)
    requires own <= own' && states <= states' && |Run(others, own)| < |states| && i < |own|
    ensures SeenIn(others, own, states, i) == SeenIn(others, own', states', i)
  {
    WovenGrows(others, own, i, |own|);
    WovenSame(others, own, own', i);
  }

  /** Each call of the process is a step of the run. */
  lemma CallIsStep(others: nat -> seq<Op>, own: seq<seq<Op>>, states: seq<Db>, i: nat)
    requires History.Behavior(states, Run(others, own)) && i < |own| && |own[i]| == 1
    ensures Position(others, own, i) + 1 < |states|
    ensures Valid(SeenIn(others, own, states, i))
    ensures Next(SeenIn(others, own, states, i), own[i][0], states[Position(others, own, i) + 1])
    ensures i == |own| - 1 ==> states[Position(others, own, i) + 1] == states[|states| - 1]
  {
    var ops, k := Run(others, own), Position(others, own, i);
    WovenGrows(others, own, i + 1, |own|);
    assert ops[k] == Woven(others, own, i + 1)[k] == own[i][0];
    assert History.StepAt(states, ops, k);
    History.AlwaysValid(states, ops, k);
  }

  lemma SeenIsValid(others: nat -> seq<Op>, own: seq<seq<Op>>, states: seq<Db>, i: nat)
    requires History.Behavior(states, Run(others, own)) && i < |own|
    ensures Valid(SeenIn(others, own, states, i))
  {
    WovenGrows(others, own, i, |own|);
    History.AlwaysValid(states, Run(others, own), Position(others, own, i));
  }

  /** A last call that only read found the database as the run leaves it. */
  lemma LastLook(others: nat -> seq<Op>, own: seq<seq<Op>>, states: seq<Db>)
    requires History.Behavior(states, Run(others, own)) && own != [] && own[|own| - 1] == []
    ensures SeenIn(others, own, states, |own| - 1) == states[|states| - 1] && Valid(states[|states| - 1])
  {
    History.AlwaysValid(states, Run(others, own), |states| - 1);
  }

  /** A row only evolves from what one call found to what a later one finds. */
  lemma RowEvolvesBetween(others: nat -> seq<Op>, own: seq<seq<Op>>, states: seq<Db>, i: nat, j: nat, id: string)
    requires History.Behavior(states, Run(others, own)) && i <= j < |own|
    requires id in SeenIn(others, own, states, i).delegations
    ensures id in SeenIn(others, own, states, j).delegations
    ensures History.Evolves(SeenIn(others, own, states, i).delegations[id], SeenIn(others, own, states, j).delegations[id])
  {
    WovenGrows(others, own, i, |own|);
    WovenGrows(others, own, j, |own|);
    WovenGrows(others, own, i, j);
    History.EvolvesOverRun(states, Run(others, own), Position(others, own, i), Position(others, own, j), id);
  }

  /** What the others do before call `i` stands in the run right before it. */
  lemma OthersInPlace(others: nat -> seq<Op>, own: seq<seq<Op>>, i: nat, k: nat)
    requires i < |own| && |Woven(others, own, i)| <= k < Position(others, own, i)
    ensures k < |Run(others, own)| && Run(others, own)[k] == others(i)[k - |Woven(others, own, i)|]
  {
    WovenGrows(others, own, i + 1, |own|);
    assert Woven(others, own, i + 1)[k] == others(i)[k - |Woven(others, own, i)|];
  }

  class World {
    const store: Store
    const others: nat -> seq<Op>
    var calls: nat
    ghost var own: seq<seq<Op>>
    ghost var states: seq<Db>

    constructor (store: Store, others: nat -> seq<Op>)
      requires Tables.Valid(store.Contents())
      ensures Valid() && this.store == store && this.others == others && own == [] && states == [store.Contents()]
    {
      this.store, this.others, calls := store, others, 0;
      own, states := [], [store.Contents()];
    }

    ghost predicate LogOf(ops: seq<Op>, db: Db)
      reads this
    {
      History.Behavior(states, ops) && states[|states| - 1] == db
    }

    /** Between calls: the log is a run that ends in the database as it is. */
    ghost predicate Valid()
      reads this, store
    {
      calls == |own| && LogOf(Run(others, own), store.Contents())
    }

    /** Within a call, the others having taken their turn. */
    ghost predicate Arrived(db: Db)
      reads this
    {
      calls == |own| + 1 && LogOf(Run(others, own) + others(|own|), db)
    }

    /** The database as call `i` found it. */
    ghost function Seen(i: nat): Db
      reads this
    {
      SeenIn(others, own, states, i)
    }

    lemma SoundNow()
      requires Valid()
      ensures Tables.Valid(store.Contents()) && states != []
    {
      History.AlwaysValid(states, Run(others, own), |states| - 1);
    }

    /** The others take their turn. */
    method Arrive()
      requires Valid()
      modifies this, store
      ensures Arrived(store.Contents()) && Tables.Valid(store.Contents())
      ensures own == old(own) && Extends(old(own), old(states))
      ensures History.Behavior(states[|old(states)| - 1..], others(|own|))
    {
      SoundNow();
      ghost var before := states;
      ghost var first := |states| - 1;
      var theirs := others(calls);
      ghost var ops := Run(others, own);
      calls := calls + 1;
      assert states[first..] == [store.Contents()] && ops + theirs[..0] == ops;
      for i := 0 to |theirs|
        invariant calls == |own| + 1 && own == old(own)
        invariant Tables.Valid(store.Contents()) && LogOf(ops + theirs[..i], store.Contents())
        invariant |before| == first + 1 && before <= states
        invariant History.Behavior(states[first..], theirs[..i])
      {
        ghost var log := states;
        Perform(store, theirs[i]);
        states := states + [store.Contents()];
        History.Extend(log, ops + theirs[..i], theirs[i], store.Contents());
        History.Extend(log[first..], theirs[..i], theirs[i], store.Contents());
        assert theirs[..i + 1] == theirs[..i] + [theirs[i]];
        assert (ops + theirs[..i]) + [theirs[i]] == ops + theirs[..i + 1];
        assert states[first..] == log[first..] + [store.Contents()];
      }
      assert theirs[..|theirs|] == theirs;
    }

    /** The call only read. */
    ghost method Looked()
      requires Arrived(store.Contents())
      modifies this`own
      ensures Valid() && own == old(own) + [[]] && Seen(|old(own)|) == store.Contents()
      ensures Extends(old(own), old(states))
    {
      ghost var before := own;
      WovenSnoc(others, own, []);
      own := own + [[]];
      assert Run(others, before) + others(|before|) + [] == Run(others, before) + others(|before|);
    }

    /** The call attempted `op`. */
    ghost method Did(seen: Db, op: Op)
      requires Arrived(seen) && Next(seen, op, store.Contents())
      modifies this`own, this`states
      ensures Valid() && own == old(own) + [[op]] && Seen(|old(own)|) == seen
      ensures states == old(states) + [store.Contents()]
      ensures Extends(old(own), old(states))
    {
      WovenSnoc(others, own, [op]);
      History.Extend(states, Run(others, own) + others(|own|), op, store.Contents());
      own := own + [[op]];
      states := states + [store.Contents()];
    }

    /** `own` and `states` have only grown since they were `before` and `log`. */
    ghost predicate Extends(before: seq<seq<Op>>, log: seq<Db>)
      reads this
    {
      before <= own && log <= states && |Run(others, before)| < |log|
    }

    /** What earlier calls saw is not affected by later ones. */
    lemma Kept(before: seq<seq<Op>>, log: seq<Db>, i: nat)
      requires Extends(before, log) && i < |before|
      ensures Seen(i) == SeenIn(others, before, log, i)
    {
      SeenStays(others, before, log, own, states, i);
    }
  }
}
