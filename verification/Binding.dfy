/** The derived cache from a session generation to a worker thread head
    (`apps/hermesd/src/adapters/sqlite_codex_binding.rs:27-113`), and why a binding it returns
    always stands for exactly the committed conversation. */
module Bindings {
  import opened Basics
  import opened Tables
  import opened Protocol
  import opened Transactions
  import opened Stores
  import opened WorkerTurns
  import Conversations
  import History
  import Invariance
  import Ownership

  datatype WorkerBinding = WorkerBinding(
    threadId: string, turnId: string, userAgent: string, provider: string, tools: seq<string>)

  datatype BindingRow = BindingRow(generation: nat, binding: WorkerBinding)

  type BindingRows = map<string, BindingRow>

  predicate ValidBinding(binding: WorkerBinding) {
    && ValidId(binding.threadId) && ValidId(binding.turnId)
    && ValidId(binding.userAgent) && ValidId(binding.provider)
    && binding.tools != []
  }

  /** The session runs the external worker and freezes exactly the bound tools. */
  predicate Matches(session: Session, binding: WorkerBinding) {
    session.config.engine.CodexAppServer? && Elements(session.config.tools) == Elements(binding.tools)
  }

  /** The session runs the external worker with exactly the tools that the binding names. */
  predicate SameCatalogue(session: Session, binding: WorkerBinding) {
    && session.config.engine.CodexAppServer?
    && (forall tool :: tool in session.config.tools ==> tool in binding.tools)
    && (forall tool :: tool in binding.tools ==> tool in session.config.tools)
  }

  /** The binding names a thread, a turn, an agent and a provider, none blank or padded, and tools. */
  predicate Complete(binding: WorkerBinding) {
    && binding.tools != []
    && forall name :: name in [binding.threadId, binding.turnId, binding.userAgent, binding.provider] ==>
         name != "" && Trim(name) == name
  }

  lemma CompleteMeans(binding: WorkerBinding)
    ensures ValidBinding(binding) <==> Complete(binding)
  {
    TrimDecides(binding.threadId);
    TrimDecides(binding.turnId);
    TrimDecides(binding.userAgent);
    TrimDecides(binding.provider);
    var names := [binding.threadId, binding.turnId, binding.userAgent, binding.provider];
    assert names[0] in names && names[1] in names && names[2] in names && names[3] in names;
  }

  lemma CatalogueMeans(session: Session, binding: WorkerBinding)
    ensures Matches(session, binding) <==> SameCatalogue(session, binding)
  {
    if Matches(session, binding) {
      forall tool | tool in session.config.tools ensures tool in binding.tools { assert tool in Elements(binding.tools); }
      forall tool | tool in binding.tools ensures tool in session.config.tools { assert tool in Elements(session.config.tools); }
    }
  }

  /** What `load_current` may return for this generation. */
  predicate Current(sessions: Sessions, rows: BindingRows, session: string, generation: nat, binding: WorkerBinding) {
    && session in sessions && sessions[session].generation == generation
    && session in rows && rows[session] == BindingRow(generation, binding)
  }

  /** The session stands at this generation, runs the external worker, and a row stored for the
      generation is a sound one. */
  predicate Readable(sessions: Sessions, rows: BindingRows, session: string, generation: nat) {
    && session in sessions && sessions[session].generation == generation
    && sessions[session].config.engine.CodexAppServer?
    && (session in rows && rows[session].generation == generation ==>
          Complete(rows[session].binding) && SameCatalogue(sessions[session], rows[session].binding))
  }

  class BindingStore {
    const store: Store
    var rows: BindingRows

    constructor (store: Store)
      ensures this.store == store && rows == map[]
    {
      this.store, rows := store, map[];
    }

    /** `load_current`: a binding only for the generation that is both asked for and stored. */
    method LoadCurrent(session: string, generation: nat) returns (r: Result<Option<WorkerBinding>, StoreError>)
      requires SessionsOk(store.sessions)
      ensures r.Ok? <==> Readable(store.sessions, rows, session, generation)
      ensures r.Ok? && r.value.Some? ==>
                && Current(store.sessions, rows, session, generation, r.value.value)
                && Complete(r.value.value) && SameCatalogue(store.sessions[session], r.value.value)
      ensures r.Ok? && r.value.None? ==>
                session in store.sessions && (session !in rows || rows[session].generation != generation)
      ensures session in store.sessions && store.sessions[session].generation != generation ==>
                r == Err(GenerationConflict(generation, store.sessions[session].generation))
    {
      var snapshot :- LoadSession(store.sessions, session);
      if snapshot.generation != generation { return Err(GenerationConflict(generation, snapshot.generation)); }
      if !snapshot.config.engine.CodexAppServer? { return Err(Invalid); }
      if session !in rows || rows[session].generation != generation { return Ok(None); }
      var binding := rows[session].binding;
      CompleteMeans(binding);
      CatalogueMeans(snapshot, binding);
      if !ValidBinding(binding) || !Matches(snapshot, binding) { return Err(Invalid); }
      return Ok(Some(binding));
    }

    /** `save`: overwrites the row only while the session still stands at the generation. */
    method Save(session: string, generation: nat, binding: WorkerBinding) returns (r: Result<(), StoreError>)
      requires SessionsOk(store.sessions)
      modifies this`rows
      ensures r.Ok? <==>
                && Complete(binding) && generation <= MAX_I64
                && session in store.sessions && SameCatalogue(store.sessions[session], binding)
                && store.sessions[session].generation == generation
      ensures rows == if r.Ok? then old(rows)[session := BindingRow(generation, binding)] else old(rows)
      ensures r.Ok? ==> Current(store.sessions, rows, session, generation, binding)
    {
      CompleteMeans(binding);
      if !ValidBinding(binding) { return Err(Invalid); }
      var expected :- ToI64(generation);
      var snapshot :- LoadSession(store.sessions, session);
      CatalogueMeans(snapshot, binding);
      if !Matches(snapshot, binding) { return Err(Invalid); }
      if snapshot.generation != generation { return Err(GenerationConflict(generation, snapshot.generation)); }
      rows := rows[session := BindingRow(expected, binding)];
      return Ok(());
    }
  }

  // ---- The protocol around the cache -------------------------------------------------

  /** A worker turn is identified by its thread and its own id. */
  datatype Head = Head(thread: string, turn: string)

  function HeadOf(binding: WorkerBinding): Head {
    Head(binding.threadId, binding.turnId)
  }

  /** One chat or gateway turn on its way from snapshot to saved binding. */
  datatype Phase =
    | Idle
    | Loaded(session: string, generation: nat, history: seq<Conversations.Message>)
    | Opened(session: string, generation: nat, history: seq<Conversations.Message>, previous: Option<WorkerBinding>)
    | Ran(session: string, generation: nat, history: seq<Conversations.Message>,
          chunk: seq<Conversations.Message>, binding: WorkerBinding)
    | Saving(session: string, generation: nat, binding: WorkerBinding)

  /** `heads` records, for every worker turn ever started, what its thread holds through it. */
  datatype World = World(db: Db, rows: BindingRows, heads: map<Head, seq<Heard>>, turns: map<nat, Phase>) {
    function At(t: nat): Phase {
      if t in turns then turns[t] else Idle
    }
  }

  /** What the worker thread holds when the new turn starts. A fork through the bound turn
      holds exactly the history through that turn; a fresh thread is given the whole
      projected history. */
  function Base(w: World, phase: Phase): seq<Heard>
    requires phase.Opened?
  {
    match phase.previous
    case Some(binding) => if HeadOf(binding) in w.heads then w.heads[HeadOf(binding)] else []
    case None => ViewAll(phase.history)
  }

  datatype Event =
    | Other(op: Op)
    | Load(turn: nat, session: string)
    | LoadBinding(turn: nat)
    | Run(turn: nat, scope: string, prompt: string, events: seq<WorkerEvent>, replay: Conversations.Json, binding: WorkerBinding)
    | Commit(turn: nat, op: Op)
    | Save(turn: nat)
    | Stop(turn: nat)

  /** The turn's chunk, possibly with the human's own text recorded beside the prompt. */
  predicate RecordsTurn(chunk: seq<Conversations.Message>, stored: seq<Conversations.Message>) {
    || stored == chunk
    || (&& chunk != [] && chunk[0].User? && stored != [] && stored[0].User?
        && stored == [chunk[0].(display := stored[0].display)] + chunk[1..])
  }

  lemma RecordedIsSeenAlike(chunk: seq<Conversations.Message>, stored: seq<Conversations.Message>)
    requires RecordsTurn(chunk, stored)
    ensures ViewAll(stored) == ViewAll(chunk)
  {
    if stored != chunk {
      if stored[0].display.Some? {
        DisplayIsInvisible(chunk, stored[0].display.value);
      } else {
        assert ViewAll(stored) == [View(chunk[0])] + ViewAll(chunk[1..]);
        assert ViewAll(chunk) == [View(chunk[0])] + ViewAll(chunk[1..]);
      }
    }
  }

  /** The commit stores the turn at the generation it started from. */
  ghost predicate CommitsTheTurn(db: Db, op: Op, phase: Phase)
    requires phase.Ran?
  {
    Enabled(db, op) ==>
      && |Ownership.Committed(db, op, phase.session)| == 1
      && RecordsTurn(phase.chunk, Ownership.Committed(db, op, phase.session)[0])
      && Ownership.GenerationOf(db, phase.session) == phase.generation
  }

  ghost predicate Step(w: World, event: Event, next: World) {
    match event
    case Other(op) => Next(w.db, op, next.db) && next == w.(db := next.db)
    case Load(t, session) =>
      && w.At(t).Idle? && session in w.db.sessions
      && var row := w.db.sessions[session];
         next == w.(turns := w.turns[t := Loaded(session, row.generation, row.messages)])
    case LoadBinding(t) =>
      && w.At(t).Loaded?
      && var p := w.At(t);
         if p.session in w.db.sessions && w.db.sessions[p.session].generation == p.generation then
           || (exists b :: Current(w.db.sessions, w.rows, p.session, p.generation, b)
                 && next == w.(turns := w.turns[t := Opened(p.session, p.generation, p.history, Some(b))]))
           || (&& (p.session !in w.rows || w.rows[p.session].generation != p.generation)
               && next == w.(turns := w.turns[t := Opened(p.session, p.generation, p.history, None)]))
         else next == w.(turns := w.turns[t := Idle])
    case Run(t, scope, prompt, events, replay, binding) =>
      && w.At(t).Opened? && HeadOf(binding) !in w.heads
      && Succeeds(scope, w.At(t).history, prompt, events)
      && var p := w.At(t);
         next == w.(heads := w.heads[HeadOf(binding) := Base(w, p) + Lived(prompt, events)],
                    turns := w.turns[t := Ran(p.session, p.generation, p.history, TurnMessages(prompt, events, replay), binding)])
    case Commit(t, op) =>
      && w.At(t).Ran? && CommitsTheTurn(w.db, op, w.At(t)) && Next(w.db, op, next.db)
      && var p := w.At(t);
         next == w.(db := next.db,
                    turns := w.turns[t := if Enabled(w.db, op) then Saving(p.session, p.generation + 1, p.binding) else Idle])
    case Save(t) =>
      && w.At(t).Saving?
      && var p := w.At(t);
         if Ownership.GenerationOf(w.db, p.session) == p.generation then
           next == w.(rows := w.rows[p.session := BindingRow(p.generation, p.binding)], turns := w.turns[t := Idle])
         else next == w.(turns := w.turns[t := Idle])
    case Stop(t) => next == w.(turns := w.turns[t := Idle])
  }

  /** The worker turn is known and its thread stands for this conversation. */
  predicate StandsFor(w: World, binding: WorkerBinding, conversation: seq<Conversations.Message>) {
    HeadOf(binding) in w.heads && w.heads[HeadOf(binding)] == ViewAll(conversation)
  }

  /** If `generation` is the session's own, then `conversation` is its conversation. */
  predicate Snapshot(db: Db, session: string, generation: nat, conversation: seq<Conversations.Message>) {
    && session in db.sessions
    && generation <= db.sessions[session].generation
    && (generation == db.sessions[session].generation ==> conversation == db.sessions[session].messages)
  }

  /** If `generation` is the session's own, then the binding stands for its conversation. */
  predicate Represents(w: World, session: string, generation: nat, binding: WorkerBinding) {
    && session in w.db.sessions
    && generation <= w.db.sessions[session].generation
    && (generation == w.db.sessions[session].generation ==> StandsFor(w, binding, w.db.sessions[session].messages))
  }

  predicate PhaseOk(w: World, phase: Phase) {
    match phase
    case Idle => true
    case Loaded(session, generation, history) => Snapshot(w.db, session, generation, history)
    case Opened(session, generation, history, previous) =>
      && Snapshot(w.db, session, generation, history)
      && (previous.Some? ==> StandsFor(w, previous.value, history))
    case Ran(session, generation, history, chunk, binding) =>
      && Snapshot(w.db, session, generation, history)
      && HeadOf(binding) in w.heads && w.heads[HeadOf(binding)] == ViewAll(history) + ViewAll(chunk)
    case Saving(session, generation, binding) => Represents(w, session, generation, binding)
  }

  ghost predicate PhasesOk(w: World) {
    forall t {:trigger w.At(t)} :: PhaseOk(w, w.At(t))
  }

  ghost predicate RowsOk(w: World) {
    forall session {:trigger w.rows[session]} | session in w.rows ::
      Represents(w, session, w.rows[session].generation, w.rows[session].binding)
  }

  ghost predicate Inv(w: World) {
    Valid(w.db) && PhasesOk(w) && RowsOk(w)
  }

  /** Worker history only grows, and a session either stays or moves to a new generation. */
  ghost predicate Onward(w: World, next: World) {
    && (forall head | head in w.heads :: head in next.heads && next.heads[head] == w.heads[head])
    && (forall session {:trigger session in w.db.sessions} {:trigger session in next.db.sessions}
          | session in w.db.sessions :: MovesOn(w.db, next.db, session))
  }

  predicate MovesOn(db: Db, next: Db, session: string)
    requires session in db.sessions
  {
    && session in next.sessions
    && (next.sessions[session] == db.sessions[session]
        || next.sessions[session].generation > db.sessions[session].generation)
  }

  lemma OpMovesOn(db: Db, op: Op, next: Db, session: string)
    requires Valid(db) && Next(db, op, next) && session in db.sessions
    ensures MovesOn(db, next, session)
  {
    if Enabled(db, op) && op.Cancel? {
      assert next.sessions == db.sessions;
    }
  }

  lemma PhaseSurvives(w: World, next: World, phase: Phase)
    requires Onward(w, next) && PhaseOk(w, phase)
    ensures PhaseOk(next, phase)
  {
    if !phase.Idle? {
      assert MovesOn(w.db, next.db, phase.session);
    }
  }

  lemma RowSurvives(w: World, next: World, session: string, row: BindingRow)
    requires Onward(w, next) && Represents(w, session, row.generation, row.binding)
    ensures Represents(next, session, row.generation, row.binding)
  {
    assert MovesOn(w.db, next.db, session);
  }

  /** A turn that moves to a sound phase, while the rest of the world moves onward. */
  lemma TurnMoves(w: World, next: World, t: nat, phase: Phase)
    requires Inv(w) && Valid(next.db) && Onward(w, next)
    requires next.turns == w.turns[t := phase] && PhaseOk(next, phase)
    requires next.rows == w.rows
    ensures Inv(next)
  {
    forall u ensures PhaseOk(next, next.At(u)) {
      if u != t {
        assert next.At(u) == w.At(u);
        PhaseSurvives(w, next, w.At(u));
      }
    }
    forall session | session in next.rows
      ensures Represents(next, session, next.rows[session].generation, next.rows[session].binding)
    {
      RowSurvives(w, next, session, w.rows[session]);
    }
  }

  lemma OtherKeepsInv(w: World, op: Op, next: World)
    requires Inv(w) && Step(w, Other(op), next)
    ensures Inv(next)
  {
    Invariance.NextKeepsValid(w.db, op, next.db);
    forall session | session in w.db.sessions ensures MovesOn(w.db, next.db, session) {
      OpMovesOn(w.db, op, next.db, session);
    }
    assert Onward(w, next);
    forall u ensures PhaseOk(next, next.At(u)) {
      assert next.At(u) == w.At(u);
      PhaseSurvives(w, next, w.At(u));
    }
    forall session | session in next.rows
      ensures Represents(next, session, next.rows[session].generation, next.rows[session].binding)
    {
      RowSurvives(w, next, session, w.rows[session]);
    }
  }

  lemma LoadBindingKeepsInv(w: World, t: nat, next: World)
    requires Inv(w) && Step(w, LoadBinding(t), next)
    ensures Inv(next)
  {
    var p := w.At(t);
    assert PhaseOk(w, p);
    if next.At(t).Opened? && next.At(t).previous.Some? {
      assert Represents(w, p.session, w.rows[p.session].generation, w.rows[p.session].binding);
    }
    TurnMoves(w, next, t, next.At(t));
  }

  /** The worker thread holds what the worker lived through; that this is what the recorded
      messages say is the worker turn's own theorem. */
  lemma RunKeepsInv(w: World, event: Event, next: World)
    requires Inv(w) && event.Run? && Step(w, event, next)
    ensures Inv(next)
  {
    var t := event.turn;
    assert PhaseOk(w, w.At(t));
    TurnSaysWhatWasLived(event.scope, event.prompt, event.events, event.replay);
    TurnMoves(w, next, t, next.At(t));
  }

  lemma CommitKeepsInv(w: World, t: nat, op: Op, next: World)
    requires Inv(w) && Step(w, Commit(t, op), next)
    ensures Inv(next)
  {
    var p := w.At(t);
    assert PhaseOk(w, p);
    Invariance.NextKeepsValid(w.db, op, next.db);
    forall session | session in w.db.sessions ensures MovesOn(w.db, next.db, session) {
      OpMovesOn(w.db, op, next.db, session);
    }
    if Enabled(w.db, op) {
      var chunks := Ownership.Committed(w.db, op, p.session);
      Ownership.StepAccounting(w.db, op, next.db, p.session);
      assert chunks == [chunks[0]];
      FlattenSnoc([], chunks[0]);
      assert [] + [chunks[0]] == chunks && [] + chunks[0] == chunks[0];
      RecordedIsSeenAlike(p.chunk, chunks[0]);
      ViewAppend(p.history, chunks[0]);
    }
    TurnMoves(w, next, t, next.At(t));
  }

  lemma SaveKeepsInv(w: World, t: nat, next: World)
    requires Inv(w) && Step(w, Save(t), next)
    ensures Inv(next)
  {
    assert PhaseOk(w, w.At(t));
    var cleared := w.(turns := w.turns[t := Idle]);
    TurnMoves(w, cleared, t, Idle);
    forall session | session in next.rows
      ensures Represents(next, session, next.rows[session].generation, next.rows[session].binding)
    {
      if session != w.At(t).session || next.rows == w.rows {
        assert Represents(w, session, w.rows[session].generation, w.rows[session].binding);
      }
    }
    forall u ensures PhaseOk(next, next.At(u)) {
      assert next.At(u) == cleared.At(u);
      PhaseSurvives(cleared, next, cleared.At(u));
    }
  }

  lemma StepKeepsInv(w: World, event: Event, next: World)
    requires Inv(w) && Step(w, event, next)
    ensures Inv(next)
  {
    match event
    case Other(op) => OtherKeepsInv(w, op, next);
    case Load(t, _) => TurnMoves(w, next, t, next.At(t));
    case LoadBinding(t) => LoadBindingKeepsInv(w, t, next);
    case Run(_, _, _, _, _, _) => RunKeepsInv(w, event, next);
    case Commit(t, op) => CommitKeepsInv(w, t, op, next);
    case Save(t) => SaveKeepsInv(w, t, next);
    case Stop(t) => TurnMoves(w, next, t, Idle);
  }

  // ---- The store makes these steps ---------------------------------------------------

  /** The world as the store's tables have it. */
  ghost predicate Mirrors(w: World, cache: BindingStore)
    reads cache, cache.store
  {
    w.db == cache.store.Contents() && w.rows == cache.rows
  }

  /** `load_current` on behalf of a turn is a `LoadBinding` step; a failure stops the turn. */
  method LoadStep(cache: BindingStore, ghost w: World, t: nat, session: string, generation: nat)
    returns (r: Result<Option<WorkerBinding>, StoreError>, ghost next: World)
    requires Mirrors(w, cache) && Valid(w.db)
    requires w.At(t).Loaded? && w.At(t).session == session && w.At(t).generation == generation
    ensures Mirrors(next, cache)
    ensures r.Ok? <==> Readable(cache.store.sessions, cache.rows, session, generation)
    ensures r.Ok? ==>
              && Step(w, LoadBinding(t), next)
              && next.At(t) == Opened(session, generation, w.At(t).history, r.value)
    ensures r.Err? ==> Step(w, Stop(t), next)
  {
    r := cache.LoadCurrent(session, generation);
    var p := w.At(t);
    next := w.(turns := w.turns[t := if r.Ok? then Opened(session, generation, p.history, r.value) else Idle]);
  }

  /** `save` on behalf of a turn is a `Save` step. */
  method SaveStep(cache: BindingStore, ghost w: World, t: nat, session: string, generation: nat, binding: WorkerBinding)
    returns (r: Result<(), StoreError>, ghost next: World)
    requires Mirrors(w, cache) && Valid(w.db)
    requires w.At(t) == Saving(session, generation, binding)
    modifies cache`rows
    ensures Mirrors(next, cache) && next.At(t) == Idle
    ensures r.Ok? <==>
              && Complete(binding) && generation <= MAX_I64
              && session in cache.store.sessions && SameCatalogue(cache.store.sessions[session], binding)
              && cache.store.sessions[session].generation == generation
    ensures r.Ok? ==> Step(w, Save(t), next) && Current(next.db.sessions, next.rows, session, generation, binding)
    ensures r.Err? ==> Step(w, Stop(t), next)
  {
    r := cache.Save(session, generation, binding);
    next := w.(rows := cache.rows, turns := w.turns[t := Idle]);
  }

  ghost predicate StepAt(worlds: seq<World>, events: seq<Event>, i: int) {
    0 <= i < |events| && i + 1 < |worlds| && Step(worlds[i], events[i], worlds[i + 1])
  }

  ghost predicate Execution(worlds: seq<World>, events: seq<Event>) {
    && |worlds| == |events| + 1
    && Valid(worlds[0].db) && worlds[0].rows == map[] && worlds[0].turns == map[]
    && forall i {:trigger StepAt(worlds, events, i)} :: 0 <= i < |events| ==> StepAt(worlds, events, i)
  }

  lemma {:induction false} AlwaysInv(worlds: seq<World>, events: seq<Event>, i: nat)
    requires Execution(worlds, events) && i < |worlds|
    ensures Inv(worlds[i])
  {
    if i > 0 {
      AlwaysInv(worlds, events, i - 1);
      assert StepAt(worlds, events, i - 1);
      StepKeepsInv(worlds[i - 1], events[i - 1], worlds[i]);
    }
  }

  /** The cache is faithful: over commits, interruptions, lost saves and competing appends,
      whatever `load_current` returns names a worker turn whose history stands for exactly the
      conversation committed at that generation. */
  lemma BindingIsFaithful(worlds: seq<World>, events: seq<Event>, i: nat, session: string, generation: nat, binding: WorkerBinding)
    requires Execution(worlds, events) && i < |worlds|
    requires Current(worlds[i].db.sessions, worlds[i].rows, session, generation, binding)
    ensures StandsFor(worlds[i], binding, worlds[i].db.sessions[session].messages)
  {
    AlwaysInv(worlds, events, i);
    assert Represents(worlds[i], session, worlds[i].rows[session].generation, worlds[i].rows[session].binding);
  }
}
