# Hermes durable core: a verified model

This project models the parts of Hermes that have to be right when several processes, crashes
and misbehaving peers meet: the durable store shared by gateways, background workers,
operators and restarted hosts, and the agent turn that produces what the store commits.

The store (`Tables`, `Protocol`, `Transactions`, `Reconciliation`, `Store`) keeps sessions,
delegations, the completion outbox and foreground turns in one database. `Protocol` says when
an operation is accepted and what it then does; the class in `Store` runs the source's guards,
loops and writes in the source's order and is proved to make exactly that step, all of it or
nothing. `Invariance` proves one invariant over all tables, and `History`, `Deliveries` and
`Ownership` prove properties of whole runs: arbitrary sequences of attempted operations by
anybody, in which a crash is a run that stops. `Progress` says, on the columns of the rows, when
each operation takes effect in a sound database and what it leaves, and that nothing is ever
stuck. `World` is the store as one process finds it:
before each of its store calls the others perform any list of operations, and a ghost log keeps
the whole run. `Supervisor` and `Gateway` are the two clients of the store whose correctness
depends on what others do between their calls; their methods say which calls they make, and
what that achieves is proved about the run. `Ledger` and
`Dispatch` do the same for the tool-effect journal and the turns that write to it, `Binding`
and `WorkerTurn` for the cache of external worker threads.

The agent turn (`Conversation`, `Projection`, `Reading`, `Fragments`, `ToolHost`, `Attempt`, `Journal`,
`Turn`, `TurnCommit`) runs against an arbitrary provider script and an arbitrary tool broker;
`TurnMeaning` and `StreamMeaning` say what becomes of a turn in terms of the events and of the
server's chunks alone.
`Normaliser`, `Framing`, `WorkerClient` and `Paging` are the streaming loops around it.

Time is an arbitrary argument, SQLite's 64-bit range is kept as a bound, and identifiers and
JSON are opaque.

## Results that differ from what the code seems to promise

Each has its exact condition, and an input on which it happens.

- `create` checks for a colliding delegation id or completion event, but not for a child
  session that already serves a delegation. Then the UNIQUE column refuses and the caller sees
  a storage error instead of a proper one. `Stores.Store.Create` states exactly when;
  `Findings.CreateCanHitTheChildConstraint` is a run that gets there. `create_with_child` is not
  affected.
- A concluded turn can fail its closing parse on a provider's output. `Turns.RunTurn`: exactly
  when the caller's history was not acceptable, or an attempt up to the last one called a tool
  with an empty name (`TurnFindings.NamedMeansNoEmptyName`).
  `TurnFindings.NamelessCallIsUnparseable` is such a turn.
- A worker whose clock reading precedes a just-stored cancellation cannot finish its row, and
  otherwise can. The row stays running until its lease passes and is then ended `Cancelled` for
  that intent. `Supervisor.StaleFinishThenExpiry`; `Findings.StaleFinishHappens` is a run.
- The restart reconciliation ends all running delegations, or, when one of them was last written
  after the restart time, none. `History.SkewBlocksRestart`; `Findings.SkewHappens` is a run.
- A stream loses reasoning exactly when some chunk pairs an empty `reasoning_content` with a
  filled `reasoning`. `Normaliser.SecondReasoningField`; `Normaliser.ReasoningIsLost` is one.

## Model

| member | source | states |
|---|---|---|
| `Invariance.NextKeepsValid` | apps/hermesd/src/adapters/sqlite.rs:164-257 | One inductive invariant over all tables survives every operation, accepted or refused: the CHECK, UNIQUE and reference constraints of the schema, the outbox matching the finished delegations one to one, at most one running attempt a session, at most one completed attempt a generation, every stored conversation settled. |
| `Invariance.EndsKeeps` | apps/hermesd/src/adapters/sqlite_delegation.rs:462-603 | Ending any set of live delegations in one transaction, and announcing exactly those, keeps the invariant. |
| `Invariance.EventFree` | apps/hermesd/src/adapters/sqlite_delegation.rs:955-973 | A live delegation's completion event is never in the outbox, so `insert_completion` cannot collide. |
| `Invariance.FreshChildIsFree` | apps/hermesd/src/adapters/sqlite_delegation.rs:47-68 | A child session that does not exist yet serves no delegation, so `create_with_child` never meets the UNIQUE child column. |
| `Transactions.TerminalIsWritable` | apps/hermesd/src/adapters/sqlite_delegation.rs:955-973 | For a live row of a reachable table, no CHECK, primary-key or UNIQUE constraint of the terminal UPDATE and the outbox INSERT can fire. |
| `Transactions.LawfulRowLoads` | apps/hermesd/src/adapters/sqlite_delegation.rs:865-921 | Every row the protocol can produce reads back as a snapshot, showing its state, fence, lease, intent and outcome; the schema admits rows that do not. |
| `Transactions.AppendTurn` | apps/hermesd/src/adapters/sqlite.rs:767-849 | Commits a chunk if and only if it is a complete turn at the current generation that keeps the whole history well-formed and countable; generation and count move with it. |
| `Transactions.LoadSession` | apps/hermesd/src/adapters/sqlite.rs:851-922 | Re-validation of a stored history succeeds for every reachable session. |
| `Transactions.CreateDelegation` | apps/hermesd/src/adapters/sqlite_delegation.rs:777-822 | Which of the three outcomes a new delegation meets: accepted, `AlreadyExists` for a colliding id or event, or a bare constraint failure for a child already in use; each characterised exactly. |
| `Reconciliation.SettleEach` | apps/hermesd/src/adapters/sqlite_delegation.rs:486-535 | The reconcile loop ends and announces every selected row or changes nothing, succeeding if and only if every row may still be settled, and reports each ended delegation once. |
| `Reconciliation.DeliverClaims` | apps/hermesd/src/adapters/sqlite_foreground.rs:102-128 | The delivery loop succeeds if and only if every claim is current, the session's own and named once; the k-th update tells this from the one row it touches. |
| `Reconciliation.CloseEach` | apps/hermesd/src/adapters/sqlite_foreground.rs:255-309 | The foreground reconcile loop closes every running attempt, or none if one was last written after the given time. |
| `Stores.Store.Create` | apps/hermesd/src/adapters/sqlite_delegation.rs:32-45 | Exactly one protocol step; `Storage` exactly when the guards pass and the child already serves a delegation. |
| `Stores.Store.CreateWithChild` | apps/hermesd/src/adapters/sqlite_delegation.rs:47-68 | Creates session and delegation together or neither; never a constraint failure. |
| `Stores.Store.Claim` | apps/hermesd/src/adapters/sqlite_delegation.rs:142-193 | Succeeds if and only if the step is enabled; the snapshot names this worker, fence 1, the deadline and the next generation. A stale generation is reported as such. |
| `Stores.Store.Heartbeat` | apps/hermesd/src/adapters/sqlite_delegation.rs:195-247 | Succeeds if and only if the caller holds the row inside its lease and strictly extends it; the fence stays, any intent stays. |
| `Stores.Store.Cancel` | apps/hermesd/src/adapters/sqlite_delegation.rs:249-346 | Pending: terminal at once and announced. Running: the intent is on the row and generation unchanged. `GenerationConflict` exactly when the generation differs. |
| `Stores.Store.Finish` | apps/hermesd/src/adapters/sqlite_delegation.rs:348-398 | Succeeds if and only if the holder may end the row this way; clears lease and intent and announces the outcome in the same transaction. |
| `Stores.Store.CompleteChild` | apps/hermesd/src/adapters/sqlite_delegation.rs:400-460 | Child turn, terminal and announcement together or nothing; only without stored intent. |
| `Stores.Store.ReconcileExpired` | apps/hermesd/src/adapters/sqlite_delegation.rs:462-536 | Takes exactly the rows whose lease has passed; reports each once. |
| `Stores.Store.ReconcileRunning` | apps/hermesd/src/adapters/sqlite_delegation.rs:538-603 | Settles exactly the running rows, or changes nothing at all. |
| `Stores.Store.ClaimCompletion` | apps/hermesd/src/adapters/sqlite_delegation.rs:690-735 | Refused for its deadline alone; finds nothing to claim exactly if there is no such completion, it is delivered, or a claim on it still runs; otherwise the claim is taken, whoever held it before. |
| `Stores.Store.AcknowledgeCompletion` | apps/hermesd/src/adapters/sqlite_delegation.rs:737-756 | True if and only if this claim held the completion, which is then delivered. |
| `Stores.Store.ReleaseCompletion` | apps/hermesd/src/adapters/sqlite_delegation.rs:758-774 | True if and only if this claim held the completion; no other row changes. |
| `Stores.Store.Append` | apps/hermesd/src/adapters/sqlite.rs:662-676 | One turn at the expected generation; a stale writer gets the actual generation and changes nothing. |
| `Stores.Store.StartTurn` | apps/hermesd/src/adapters/sqlite_foreground.rs:45-137 | The turn row and all deliveries, or neither; succeeds if and only if the session is idle at this generation and every claim is acceptable. |
| `Stores.Store.CompleteTurn` | apps/hermesd/src/adapters/sqlite_foreground.rs:139-181 | The append and the completed attempt in one transaction. |
| `Stores.Store.TerminateTurn` | apps/hermesd/src/adapters/sqlite_foreground.rs:183-230 | Ends a running attempt without touching any session; only while the session stands at the attempt's generation. |
| `Stores.Store.ReconcileTurns` | apps/hermesd/src/adapters/sqlite_foreground.rs:255-320 | Closes every running attempt as unknown; names exactly those it closed. |
| `History.AlwaysValid` | apps/hermesd/src/adapters/sqlite_delegation.rs:142-603 | Every state of every run from a valid database satisfies the invariant. |
| `History.EvolvesOverRun` | apps/hermesd/src/adapters/sqlite_delegation.rs:142-603 | Over any run a delegation only moves along its life cycle: identity, worker and fence are fixed once claimed, generations and timestamps never go back, a later generation of a running row holds a strictly later deadline, and a finished row is frozen. |
| `History.ClaimedAtMostOnce` | apps/hermesd/src/adapters/sqlite_delegation.rs:142-193 | However many supervisors race, a delegation is claimed at most once ever. |
| `History.FinishedAtMostOnce` | apps/hermesd/src/adapters/sqlite_delegation.rs:348-603 | A delegation reaches a terminal at most once. |
| `History.FinishedForever` | apps/hermesd/src/adapters/sqlite_delegation.rs:955-973 | A finished row never changes again and its announcement stands in every later state, with the same outcome and time. |
| `History.AnnouncementOf` | apps/hermesd/src/adapters/sqlite_delegation.rs:923-973 | A finished delegation has exactly one outbox row, under its own event, matching its outcome and completion time. |
| `History.OutboxMirrorsLifecycle` | apps/hermesd/src/adapters/sqlite_delegation.rs:955-973 | An event has an outbox row if and only if its delegation is over. |
| `History.CancellationIsSticky` | apps/hermesd/src/adapters/sqlite_delegation.rs:249-346 | Stored intent survives every continuation of the run; the only terminal still reachable is `Cancelled` with that reason. |
| `History.CancelledNeedsIntent` | apps/hermesd/src/adapters/sqlite_delegation.rs:1093-1123 | A claimed run that ends `Cancelled` had that very reason stored on the running row before. |
| `History.OwnerOrReconciler` | apps/hermesd/src/adapters/sqlite_delegation.rs:1045-1058 | At any instant the owner may finish or the reconciler may take the row, never both and never neither. |
| `History.ExpiryIsNeverSkewed` | apps/hermesd/src/adapters/sqlite_delegation.rs:462-536 | `reconcile_expired` is refused for no timestamp reason: within SQLite's range it is accepted if and only if no expired row has exhausted its generation counter. |
| `History.ExpiryIsComplete` | apps/hermesd/src/adapters/sqlite_delegation.rs:462-536 | Afterwards no passed lease is running, open leases are untouched, and intent decides between `Cancelled` and unknown. |
| `History.SkewBlocksRestart` | apps/hermesd/src/adapters/sqlite_delegation.rs:538-603 | `reconcile_running` leaves no row running if every running row can be settled at that time, and changes nothing at all otherwise. |
| `Findings.CreateCanHitTheChildConstraint` | apps/hermesd/src/adapters/sqlite_delegation.rs:777-822 | A run from the empty database to one in which every check of `create` passes and the UNIQUE child column still refuses. |
| `Findings.StaleFinishHappens` | apps/hermesd/src/cli/background.rs:247-258 | A run to a state in which the worker is refused the finish for a stored cancellation, for its clock alone. |
| `Findings.SkewHappens` | apps/hermesd/src/adapters/sqlite_delegation.rs:538-603 | A run to a state in which the restart reconciliation leaves a running row running. |
| `Findings.CreateWithChildNeverDoes` | apps/hermesd/src/adapters/sqlite_delegation.rs:47-68 | Through `create_with_child` passing the checks is enough. |
| `Deliveries.ProgressesOverRun` | apps/hermesd/src/adapters/sqlite_delegation.rs:690-774 | Over any run an announcement is never rewritten and a delivered one never reopened. |
| `Deliveries.DeliveredAtMostOnce` | apps/hermesd/src/adapters/sqlite_delegation.rs:737-756 | No completion is delivered twice, over all interleavings of consumers. |
| `Deliveries.DeliveryNeedsTheClaim` | apps/hermesd/src/adapters/sqlite_foreground.rs:102-128 | Delivery happens only to the holder of the claim, and through a turn only to the parent session of the delegation. |
| `Deliveries.OneBadClaimRejects` | apps/hermesd/src/adapters/sqlite_foreground.rs:102-128 | One stale, repeated or foreign claim leaves no turn row and delivers nothing. |
| `Deliveries.ClaimIsExclusive` | apps/hermesd/src/adapters/sqlite_delegation.rs:690-735 | A claim lasts through any interleaving in which nobody claims at or after its deadline and nobody presents its id. |
| `Ownership.SessionAccounting` | apps/hermesd/src/adapters/sqlite.rs:767-849 | Between any two states of a run a session's generation grows by the number of committed turns and its conversation by their concatenation. |
| `Ownership.HistoryOfASession` | apps/hermesd/src/adapters/sqlite.rs:767-922 | From an empty database the generation is one plus the committed turns, and the conversation is their concatenation, well-formed and ended by an assistant. |
| `Ownership.StaleForever` | apps/hermesd/src/adapters/sqlite.rs:785-791 | Once a session has moved past a generation, no later append, turn completion or child completion that presents it has any effect, in any run. |
| `Ownership.HowAnAttemptEnds` | apps/hermesd/src/adapters/sqlite_foreground.rs:139-309 | An attempt that stops running in a run does so at one step, for good, and is completed exactly if that step appended its messages to its session at its generation; any other ending left all conversations alone. |
| `Ownership.OvertakenEndsUnknown` | apps/hermesd/src/adapters/sqlite_foreground.rs:183-309 | An attempt overtaken by another writer ends, in any run, by a restart's reconciliation only, as an unknown outcome. |
| `Ownership.OvertakenForever` | apps/hermesd/src/adapters/sqlite_foreground.rs:183-309 | An overtaken attempt stays overtaken for the rest of the run. |
| `Ownership.OneCompletionAGeneration` | apps/hermesd/src/adapters/sqlite_foreground.rs:139-181 | Two completions of one session at one generation are the same completion. |
| `Ownership.OneRunningAttempt` | apps/hermesd/src/adapters/sqlite_foreground.rs:45-137 | In every reachable state a session has at most one running attempt, never ahead of its session. |
| `Progress.ClaimTakes` | apps/hermesd/src/adapters/sqlite_delegation.rs:142-193 | In every sound database a delegation that nobody has taken goes to whoever claims it at its generation, with the whole row that leaves; otherwise nothing changes. |
| `Progress.HeartbeatTakes` | apps/hermesd/src/adapters/sqlite_delegation.rs:195-247 | The worker in charge extends its open lease, and nothing else about the row changes; any other heartbeat changes nothing. |
| `Progress.CancelTakes` | apps/hermesd/src/adapters/sqlite_delegation.rs:249-346 | Anybody ends a waiting delegation or leaves one reason on a running one within its lease; any other request changes nothing. |
| `Progress.FinishTakes` | apps/hermesd/src/adapters/sqlite_delegation.rs:348-398 | Within the lease the worker in charge ends its row, for the stored reason if there is one and otherwise with anything but a cancellation; row and announcement are spelled out. |
| `Progress.CompleteChildTakes` | apps/hermesd/src/adapters/sqlite_delegation.rs:400-460 | The same together with the child's turn, exactly if no reason is stored and the child can go on with it. |
| `Progress.ReconcileExpiredTakes` | apps/hermesd/src/adapters/sqlite_delegation.rs:462-536 | Ends and announces exactly the running rows whose lease has passed, each for its reason or as unknown; refused only when a generation counter is used up. |
| `Progress.ReconcileRunningTakes` | apps/hermesd/src/adapters/sqlite_delegation.rs:538-603 | Ends and announces exactly the running rows, or none: none exactly if one was written after the given time or has used up its counter. |
| `Progress.ClaimCompletionTakes` | apps/hermesd/src/adapters/sqlite_delegation.rs:690-735 | A completion never claimed, or whose claim has lapsed, goes to whoever claims it; a delivered one or one under a running claim to nobody. |
| `Progress.AcknowledgeTakes` | apps/hermesd/src/adapters/sqlite_delegation.rs:737-756 | Delivers exactly for the claim that the row names, not before the completion was created. |
| `Progress.StartTurnTakes` | apps/hermesd/src/adapters/sqlite_foreground.rs:45-137 | A turn starts exactly in an idle session at the generation presented, with claims that are current, distinct and the session's own; those completions, and no others, are then delivered. |
| `Progress.CompleteTurnTakes` | apps/hermesd/src/adapters/sqlite_foreground.rs:139-181 | An open attempt completes exactly if its session can go on with the messages, which are then appended. |
| `Progress.TerminateTurnTakes` | apps/hermesd/src/adapters/sqlite_foreground.rs:183-230 | An open attempt that nobody has overtaken can be given up, for a stated reason. |
| `Progress.ReconcileTurnsTakes` | apps/hermesd/src/adapters/sqlite_foreground.rs:255-320 | A restart closes every open attempt as unknown, or none if its clock is behind one of them. |
| `Progress.AppendTakes` | apps/hermesd/src/adapters/sqlite.rs:767-849 | Whether the whole history accepts a complete turn never matters: only the generation and the counters do. |
| `Progress.CreateTakes` | apps/hermesd/src/adapters/sqlite_delegation.rs:777-822 | A delegation is created exactly if its id, event and child are unused and both sessions exist. |
| `Progress.CreateWithChildTakes` | apps/hermesd/src/adapters/sqlite_delegation.rs:47-68 | With a new child session it is enough that id and event are unused. |
| `Progress.NoCompletionIsStranded` | apps/hermesd/src/adapters/sqlite_delegation.rs:690-756 | From every sound database, whatever became of earlier claimants: once any claim has lapsed, the next claim and its acknowledgement deliver the completion. |
| `Progress.ACompletionReachesItsParent` | apps/hermesd/src/adapters/sqlite_foreground.rs:45-137 | And a turn started in the idle parent session with that claim carries it to the provider. |
| `Progress.NoDelegationIsStranded` | apps/hermesd/src/adapters/sqlite_delegation.rs:249-536 | Whatever became of its worker, a cancellation while it waits, or a reconciliation once its lease has passed, ends and announces a delegation. |
| `Progress.NoSessionIsStranded` | apps/hermesd/src/adapters/sqlite_foreground.rs:45-320 | After a restart's reconciliation a turn can start in any session and append any complete exchange, while counters last. |
| `Conversations.ValidateCalls` | crates/domain/src/conversation.rs:217-234 | Accepts exactly the non-empty lists of named calls with distinct ids, and blames a real duplicate. |
| `Conversations.Create` | crates/domain/src/conversation.rs:170-215 | The automaton accepts exactly the conversations in which every message may follow its predecessor and no request is left open; otherwise it reports the first offending position. |
| `Conversations.RevalidateChunkOnly` | apps/hermesd/src/adapters/sqlite.rs:792-797 | Validating the whole extended history accepts exactly when validating the appended chunk alone does. |
| `Projection.ProjectConversation` | crates/runtime/src/lib.rs:690-740 | Prints exactly the well-formed conversations whose results carry execution keys. |
| `Projection.Semanticize` | crates/runtime/src/lib.rs:1011-1087 | The index-driven parser accepts exactly the flat histories that parse into a well-formed conversation. |
| `Projection.ParseAppend` | crates/runtime/src/lib.rs:1011-1087 | Parsing splits at every position that is not inside a result batch. |
| `Projection.RoundTrip` | crates/runtime/src/lib.rs:690-740 | Parsing a printed conversation gives it back message for message: results and answers unchanged, requests but for empty text, prompts but for the display text. |
| `Projection.SliceIsTheNewTurn` | apps/hermesd/src/cli/gateway.rs:843-869 | Behind a printed history, slicing the parse at the stored length yields the history and exactly the parsed new turn. |
| `Readings.AcceptedIsPrinted` | crates/runtime/src/lib.rs:1011-1087 | A flat history without system prompts is accepted if and only if it is, message for message and up to the writing of arguments and empty text, what some well-formed conversation with valid ids and keyed results prints as; it is then read as that conversation. |
| `Readings.ReadPrintsBack` | crates/runtime/src/lib.rs:1011-1087 | Whatever is read prints back as the history it was read from, without its system prompts. |
| `Fragments.CollectIsPerIndex` | crates/runtime/src/lib.rs:413-427 | The folded fragments are, index by index, the first id and name and the joined arguments; folding fails exactly when two fragments of one index disagree. |
| `Fragments.InterleavingIsIrrelevant` | crates/runtime/src/lib.rs:413-427 | Any interleaving that keeps each index's own order folds to the same calls. |
| `Fragments.Reassembly` | crates/runtime/src/lib.rs:785-816 | Any splitting and interleaving of a list of calls is reassembled into exactly that list. |
| `Fragments.FinishedIsRead` | crates/runtime/src/lib.rs:785-816 | A stream of fragments is finished into a list of calls if and only if it spells them: index by index an id and a name that stand in some piece, and joined argument text that decodes to the arguments. |
| `Fragments.ContiguousMeansNoGap` | crates/runtime/src/lib.rs:785-793 | The length comparison rejects exactly the index sets with a gap. |
| `ToolHosts.AllocateInvocationIds` | crates/runtime/src/lib.rs:845-864 | Issues scope-qualified ids exactly when they are valid, distinct and never issued before. |
| `ToolHosts.InvocationIdIsInjective` | crates/runtime/src/lib.rs:845-864 | Within one scope different calls never share an execution key. |
| `ToolHosts.ValidateApprovalResolution` | crates/runtime/src/lib.rs:883-926 | Accepts exactly the resolutions that leave frozen plans alone and settle pending approvals for the same principal. |
| `ToolHosts.WhatAResolutionMayChange` | crates/runtime/src/lib.rs:883-926 | A resolution is lawful exactly if it hands back the very plans, with each pending approval made "allow" or "deny" under the same requirement and principal, and nothing else changed. |
| `ToolHosts.ValidateTerminals` | crates/runtime/src/lib.rs:928-961 | Accepts exactly one terminal per plan, in any order, none altering its plan. |
| `ToolHosts.EveryPlanHasATerminal` | crates/runtime/src/lib.rs:621-640 | Validated terminals leave no plan unanswered: equal length, distinct ids and membership exhaust the plans. |
| `ToolHosts.OneTerminalEach` | crates/runtime/src/lib.rs:928-961 | A batch of terminals is valid exactly if it has as many as there are plans and each plan has one under its own call, name, key and effect. |
| `ToolHosts.OrderTerminals` | crates/runtime/src/lib.rs:621-640 | Puts the terminals back into call order; the branch for a missing one is unreachable. |
| `ToolHosts.ToolHost.Plan` | crates/runtime/src/lib.rs:134-140 | Returns a batch only under fresh kernel identities in call order. |
| `Attempts.Consume` | crates/runtime/src/lib.rs:375-468 | The event loop computes the fold whose meaning `ConsumedMeaning` states. |
| `Attempts.ConsumedMeaning` | crates/runtime/src/lib.rs:375-468 | An attempt is consumed exactly when it is all events, nothing follows its terminal and its fragments agree; it then holds the joined text and reasoning, the calls, and whether anything was visible. |
| `TurnMeanings.FirstFaultIsReported` | crates/runtime/src/lib.rs:375-468 | The first item that cannot be consumed decides the failure: a broken transport, an event after the terminal, or a fragment that contradicts an earlier one. |
| `Journals.LawfulJournal` | crates/runtime/src/lib.rs:538-620 | Per execution key planned precedes started precedes ended, each at most once; a denied call never starts and any other ends only after starting. |
| `Journals.EveryCallRunsUnlessDenied` | crates/runtime/src/lib.rs:577-661 | In a journal that leaves nothing open every planned call ended, and it was started unless its approval was decided "deny". |
| `Journals.RoundRebuilds` | crates/runtime/src/lib.rs:538-661 | Replaying a round's intents gives its request and its results in call order. |
| `Journals.RoundIsLawful` | crates/runtime/src/lib.rs:577-661 | A validated round journals lawfully and leaves every effect ended. |
| `Turns.RunRound` | crates/runtime/src/lib.rs:577-661 | Succeeds exactly if the ids can be issued and plans, approvals and terminals of the broker's round are lawful; returns the broker's terminals looked up call by call, and exactly the intents of that round. |
| `Turns.RunTurn` | crates/runtime/src/lib.rs:302-687 | For every provider and broker script: the first attempt that stops the loop decides the result, each failure exactly at its own stop. A concluded turn parses exactly if the caller's history was acceptable and every attempt named its calls; then requests only grow, within the budget, by each tool round's request and the broker's own terminals in call order, the journal is exactly that of the attempts and answers, lawful and closed, and replays to the parsed transcript. The missing-terminal error never occurs. |
| `Turns.SoundWhileGoing` | crates/runtime/src/lib.rs:345-661 | While the loop goes on the journal is lawful, replays to the transcript, leaves no effect open and records exactly the issued ids, and the transcript is acceptable exactly if the input was and all calls were named. |
| `TurnMeanings.HowATurnEnds` | crates/runtime/src/lib.rs:345-661 | By the events streamed alone. Every attempt but the last called tools, and was answered by the broker's next round, or failed silently with a fallback allowed; each request extends the one before by exactly that. The last did neither: completed exactly on a finished reply without calls whose reason is "stop" or absent, incomplete on another reason, cancelled, interrupted or failed as its last event and what was shown say; with the whole text, reason and replay data recorded. |
| `TurnMeanings.WhyATurnFails` | crates/runtime/src/lib.rs:302-676 | Each failure of a valid turn if and only if its cause: attempts used up, no stream, a stream that cannot be read, fragments that spell no calls, a round the broker does not serve, unused scripted attempts. |
| `TurnMeanings.RoundsAreCounted` | crates/runtime/src/lib.rs:531-661 | The broker's rounds are used up one by one, by the attempts that call tools. |
| `TurnFindings.NamedMeansNoEmptyName` | crates/runtime/src/lib.rs:785-816 | An attempt names its calls exactly if no streamed call carries an empty name. |
| `TurnFindings.NamelessCallIsUnparseable` | crates/runtime/src/lib.rs:678-687 | A turn whose rounds are all let through and which concludes, and whose closing parse fails. |
| `TurnCommit.RequestsAreNested` | crates/runtime/src/lib.rs:345-367 | Every request is a prefix of the final provider conversation. |
| `TurnCommit.SliceCommits` | apps/hermesd/src/cli/gateway.rs:843-869 | What the gateway slices off a finished turn opens with the prompt, ends with the response and is accepted behind the stored history. |
| `TurnCommit.DisplayTextIsHarmless` | apps/hermesd/src/cli/gateway.rs:870-879 | Recording the human's own text keeps the chunk acceptable. |
| `TurnCommit.CommittedIsStorable` | apps/hermesd/src/cli/gateway.rs:843-879 | A settled, printable history with valid identifiers is one again after an answered turn is committed to it, so turns chain. |
| `Ledger.PlanBatch` | apps/hermesd/src/adapters/sqlite.rs:339-408 | Records a batch if and only if it is non-empty, duplicate-free and new; what is then pending under each key is that plan, under that scope. |
| `Ledger.CheckResolved` | apps/hermesd/src/adapters/sqlite.rs:435-500 | A resolved plan passes exactly when it is the recorded one, still open, and its approval may so change. |
| `Ledger.ApprovalBatch` | apps/hermesd/src/adapters/sqlite.rs:410-515 | All or nothing; the second write pass cannot fail after the check pass, and rows whose approval was settled keep it. |
| `Ledger.TerminalBatch` | apps/hermesd/src/adapters/sqlite.rs:517-596 | All or nothing; ends exactly the named open rows, each with its own terminal's status, content and receipt, the plan untouched; the write pass cannot fail. |
| `Ledger.EffectLedger.Pending` | apps/hermesd/src/adapters/sqlite.rs:598-643 | Exactly the recorded plans without a terminal, each with its scope and current approval, none twice. |
| `Dispatch.JournaledBroker.Plan` | crates/runtime/src/lib.rs:60-72 | Plans leave the decorator only once every key is durably recorded. |
| `Dispatch.JournaledBroker.ResolveApprovals` | crates/runtime/src/lib.rs:74-91 | Decisions on pending approvals are durable before they are returned. |
| `Dispatch.StepKeepsInv` | crates/runtime/src/lib.rs:55-106 | Over interleaved turns: held keys are recorded, unsent and disjoint; sent keys are distinct and recorded. |
| `Dispatch.DispatchedAtMostOnce` | crates/runtime/src/lib.rs:93-105 | Across any number of turns, crashes and retries no execution key reaches the inner broker twice. |
| `Dispatch.DispatchIsWrittenAhead` | crates/runtime/src/lib.rs:577-620 | What is dispatched is already journaled with the same call, arguments and effect, under a stored decision. |
| `Dispatch.RowsEvolveOverRun` | apps/hermesd/src/adapters/sqlite.rs:410-596 | A journal row's plan never changes, its approval goes from pending to decided once, its terminal is final. |
| `Dispatch.JournaledRound` | crates/runtime/src/lib.rs:60-165 | A tool round through the host and the journaled broker is a stretch of such a run: journaled, decided, sent, settled, in that order, and nothing is sent by a round that stops before. |
| `Worlds.World.Arrive` | apps/hermesd/src/cli/background.rs:247-321 | Between two store calls of a process any list of operations by others takes effect: the log grows by exactly that stretch of a run and ends in the database the next call finds. |
| `Supervisor.Wait` | apps/hermesd/src/cli/background.rs:158-225 | For every script of wakes and interference: exactly one store call for each poll and heartbeat, each heartbeat presenting one generation more than the one before; the wait ends at the first wake that finds the turn over, a signal, a stored intent or a lost lease, with that outcome. While nobody else touches the lease the tracked generation is the row's own, and the heartbeat that is refused was mistimed. |
| `Supervisor.WaitEndsAtItsCause` | apps/hermesd/src/cli/background.rs:183-225 | By the rows its calls found alone: before the wake that ends a wait no turn was over, no signal came, no poll or accepted heartbeat found a stored reason, and no heartbeat was refused; the wake that ends it did, the outcome says which, and a reason found is the reason given. |
| `Supervisor.CallsOfTheWait` | apps/hermesd/src/cli/background.rs:197-218 | A poll only reads; a heartbeat presents the claimed generation plus one for each heartbeat before it, and asks for 90 seconds. |
| `Supervisor.FinishExecution` | apps/hermesd/src/cli/background.rs:227-321 | Makes exactly the calls of the source (told: finish; else load, then finish for the intent found, or commit and, if refused, reload and finish under the authority then on the row), and succeeds exactly if the last of them is enabled on the state it finds. |
| `Supervisor.FinishIsExact` | apps/hermesd/src/cli/background.rs:227-304 | The calls and their success on the columns of the rows they found: told to stop, it succeeds exactly if the worker is in charge and no other reason is stored; so too for a reason the check finds; otherwise exactly if the turn can be committed on the state found, or the recovery then finds a reason and ends the row for it under the authority now on the row. |
| `Supervisor.FinishedIsOver` | apps/hermesd/src/cli/background.rs:227-321 | Over every such run: success means the row has ended with the outcome those calls decided, and `Cancelled` for its reason if an intent was durable at any moment. |
| `Supervisor.WhatAFinishLeaves` | apps/hermesd/src/cli/background.rs:227-304 | A worker told to stop leaves that reason; one that broke its error and one that answered its summary, with the child's conversation extended by exactly that turn, unless the row is `Cancelled`. |
| `Supervisor.LateIntentIsHonoured` | apps/hermesd/src/cli/background.rs:278-304 | An intent that slips in between the check and the commit defeats the commit, and the row is ended for it, if the lease is open and nobody else touches it. |
| `Supervisor.ExecuteClaim` | apps/hermesd/src/cli/background.rs:158-225 | The wait followed by the finish, under the generation the wait ended with; a lost lease makes no further call. |
| `Supervisor.NoChildTurnAfterIntent` | apps/hermesd/src/cli/background.rs:227-304 | In no run is the child turn appended after the intent. |
| `Supervisor.StaleFinishThenExpiry` | apps/hermesd/src/cli/background.rs:249-258 | With the lease open, the finish for a stored intent is accepted exactly if it is not stamped before it; once the lease has passed, reconciliation ends the row `Cancelled` for that intent. |
| `Gateway.AvailableFor` | apps/hermesd/src/adapters/sqlite_delegation.rs:644-688 | At most `limit` undelivered completions of this parent, never claimed or with a lapsed claim; all of those when there is room. |
| `Gateway.ClaimParentCompletions` | apps/hermesd/src/cli/gateway.rs:750-788 | Whatever happens between its calls: lists, then claims each listed completion once; the result is exactly those claims that found their completion still to be had; on a failed draw or claim everything taken is released. With nobody else active, everything available up to the limit. |
| `Gateway.ReleaseDeliveryClaims` | apps/hermesd/src/cli/gateway.rs:790-796 | One release per claim, after which nothing is held under this gateway's ids, whatever others do in between. |
| `Gateway.Submit` | apps/hermesd/src/cli/gateway.rs:528-614 | Its store calls, case by case. A prompt that can be offered is accepted exactly if the start, with the loaded generation and the claims won, is enabled on the state it finds: then the turn runs, everything claimed is delivered, to this session, and the provider is told the bare text or, if anything was claimed, the rendering of exactly the completions delivered. Refused at any point, a failed rendering included: every claim taken is released and nothing stays held. |
| `Gateway.SubmitIsExact` | apps/hermesd/src/cli/gateway.rs:528-614 | Accepted if and only if the text is not blank, the session was there to load, claiming went through, the prompt could be rendered, and the session as the start finds it is idle at the generation loaded, with every claim won current and its own. |
| `Gateway.SubmitSparesOthers` | apps/hermesd/src/cli/gateway.rs:528-614 | No store call made for a prompt touches a completion held under anybody else's claim, unless that claim has lapsed. |
| `Gateway.CancelDelegation` | apps/hermesd/src/cli/gateway.rs:399-492 | Its store calls: the parent must exist, then up to three rounds of load and attempt, going on exactly if the generation moved in between. Accepted exactly if the last attempt is enabled; refused only at an unmoved generation. |
| `Gateway.ReplyIsBorneOut` | apps/hermesd/src/cli/gateway.rs:399-465 | Over every such run, each reply is backed by the row as the run leaves it. |
| `Gateway.ReplyIsExact` | apps/hermesd/src/cli/gateway.rs:418-465 | Which reply is given, if and only if by the row the last load found: not the parent's, over, asked to stop already with that reason, or open and then requested at the generation found, accepted exactly if the row that call finds can be cancelled so; every earlier round found it open. |
| `Gateway.ContentionIsReal` | apps/hermesd/src/cli/gateway.rs:418-465 | Giving up means the generation advanced at least three times under it. |
| `Bindings.BindingStore.LoadCurrent` | apps/hermesd/src/adapters/sqlite_codex_binding.rs:27-74 | Succeeds exactly if the session stands at the asked generation, runs the external worker and has no incomplete or mismatched row for it; returns a binding, naming exactly the session's tools, exactly if one is stored for that generation. |
| `Bindings.BindingStore.Save` | apps/hermesd/src/adapters/sqlite_codex_binding.rs:77-113 | Overwrites the row if and only if the binding is complete, the session still stands at the represented generation and it names exactly the session's tools. |
| `Bindings.StepKeepsInv` | apps/hermesd/src/cli/gateway.rs:880-891 | Every step of a turn from snapshot to saved binding, and of anybody else, keeps the cache honest; a worker turn adds to its thread what it lived through, and to the session the messages recorded of it. |
| `Bindings.LoadStep` | apps/hermesd/src/adapters/sqlite_codex_binding.rs:27-74 | `load_current` on behalf of a turn is one such step. |
| `Bindings.SaveStep` | apps/hermesd/src/adapters/sqlite_codex_binding.rs:77-113 | `save` on behalf of a turn is one such step. |
| `Bindings.BindingIsFaithful` | apps/hermesd/src/adapters/sqlite_codex_binding.rs:27-113 | Over commits, interruptions, lost saves and competing appends, any binding the cache returns names a worker turn whose history stands for exactly the committed conversation. |
| `WorkerTurns.RunWorkerTurn` | apps/hermesd/src/adapters/codex/engine.rs:314-602 | For every event script: succeeds exactly if the request is valid, the history settled, the worker completes, every call has a valid id and can be served by the host, all calls are named and there is text; the result is then the history and the messages of the script, a complete turn that ends with the streamed texts joined and says to a worker what this worker lived through. |
| `WorkerTurns.TurnSaysWhatWasLived` | apps/hermesd/src/adapters/codex/engine.rs:545-597 | The recorded messages, seen as a worker sees them, are the prompt, each tool call with the answer given to it, and the streamed text. |
| `WorkerTurns.CallsAreStored` | apps/hermesd/src/adapters/codex/engine.rs:545-560 | Each tool call of the turn is stored in its place, its one result with the host terminal's status and content under the kernel's own key; nothing else is stored but the prompt and the reply. |
| `WorkerTurns.TurnIsStorable` | apps/hermesd/src/adapters/codex/engine.rs:545-599 | A storable history with a worker turn behind it is storable again: settled, printable, with valid ids. |
| `WorkerTurns.TranscriptIsWellFormed` | apps/hermesd/src/adapters/codex/engine.rs:585-599 | The final transcript is acceptable exactly if the history was settled and every called tool has a name. |
| `Normaliser.Normalise` | apps/hermesd/src/adapters/openai.rs:161-278 | For every server stream: every delta and usage report before the first item that stops it comes out, in order, after one message start; the output closes as that item calls for and nothing follows; all content was there by the first finish reason, which `Completed` carries. |
| `Normaliser.NothingFollowsTheTerminal` | crates/runtime/src/lib.rs:381-387 | On such a stream the runtime's "event after its terminal" error cannot occur. |
| `StreamMeanings.HowAStreamCloses` | apps/hermesd/src/adapters/openai.rs:161-278 | By the chunks alone, at the first item that stops the stream: a broken transport, an error chunk with its message, an unreadable chunk, several choices and data after the finish reason each show as such, if and only if; `[DONE]` completes with the least chunk's finish reason before it, or "stop" if none gives one; so does the end of the stream, but without a reason it stays open. |
| `StreamMeanings.PiecesArePassedOn` | apps/hermesd/src/adapters/openai.rs:245-253 | The fragments passed on are the pieces of tool calls sent before the stop, one for one: index, id, name and argument text. |
| `StreamMeanings.ReplyDecidesTheTurn` | crates/runtime/src/lib.rs:537-561 | From the server's chunks to the turn: a reply without calls completes it exactly if the server completed and its first finish reason, if any, was "stop"; with any other reason the turn is incomplete. |
| `Normaliser.ReadAttempt` | crates/runtime/src/lib.rs:375-468 | A server stream read by the runtime fails exactly on a broken transport or contradictory fragments, and otherwise holds the content before the stop, ended as the stop says. |
| `Normaliser.SecondReasoningField` | apps/hermesd/src/adapters/openai.rs:240-244 | All reasoning sent comes out exactly if no item before the stop pairs an empty first field with reasoning in the second. |
| `Normaliser.ReasoningIsLost` | apps/hermesd/src/adapters/openai.rs:240-244 | One stream whose only reasoning is lost while it completes. |
| `Framing.FramesReadBack` | apps/hermesd/src/adapters/codex/mod.rs:365-380 | Newline-free frames written one per line split back into exactly those frames. |
| `Framing.SplitIsLossless` | apps/hermesd/src/adapters/codex/mod.rs:429-450 | The newline split loses nothing and no line contains a newline. |
| `Framing.ReadBoundedLine` | apps/hermesd/src/adapters/codex/mod.rs:429-450 | The result depends on the stream alone, not on its chunking; it fails exactly when the next line exceeds the bound. |
| `Framing.ReadFrames` | apps/hermesd/src/adapters/codex/mod.rs:382-392 | Repeated reads yield the newline split of the whole stream, cut at the first line that is too long. |
| `WorkerClients.WorkerClient.AllocateRequestId` | apps/hermesd/src/adapters/codex/mod.rs:359-363 | Identities are consecutive; the last one is never issued. |
| `WorkerClients.WorkerClient.NextEvent` | apps/hermesd/src/adapters/codex/mod.rs:258-264 | Delivers the oldest undelivered notice in arrival order: from the buffer without reading if there is one, else what the next message is, with each failure exactly at its own message. |
| `WorkerClients.WorkerClient.Request` | apps/hermesd/src/adapters/codex/mod.rs:323-357 | The result is that of the first inbound message that is not a notice, answered only by its own id; the notices before it are kept in order and nothing behind it is read. |
| `Paging.TruncateLine` | apps/hermesd/src/adapters/local_tools.rs:420-429 | Cuts at the last character boundary within the limit. |
| `Paging.TruncationKeepsCharacters` | apps/hermesd/src/adapters/local_tools.rs:420-429 | Of UTF-8 text too long to show, exactly the whole characters that fit 4000 bytes are shown, and the mark behind them; shorter text is shown whole. |
| `Paging.LinesRebuild` | apps/hermesd/src/adapters/local_tools.rs:188-190 | The lines of a text, each with its newline, its carriage return and newline, or at the end nothing, rebuild the text. |
| `Paging.LinesAreTheOnlySplit` | apps/hermesd/src/adapters/local_tools.rs:188-190 | And they are the only lines that do. |
| `Paging.OneLineAlwaysFits` | apps/hermesd/src/adapters/local_tools.rs:203-212 | In a file small enough to be read, one rendered line always fits the output budget. |
| `Paging.PageReadsBack` | apps/hermesd/src/adapters/local_tools.rs:202-213 | Split at its newlines, a page is the lines it shows, each behind its one-based number and a bar. |
| `Paging.ReadFile` | apps/hermesd/src/adapters/local_tools.rs:169-221 | A page shows at least one whole line, never more than the limit, stops short only where the next line would not fit, and advertises the next offset exactly when lines remain. |
| `Paging.ReadEverything` | apps/hermesd/src/adapters/local_tools.rs:192-221 | Following the advertised offsets from 1, under any limits, ends and shows every line once and in order. |

## Left out

- **SQLite itself.** Each immediate transaction is taken as atomic and serial. SQL text, WAL, schema migrations and the `updated_at` columns of `sessions` and `worker_bindings` are not modelled; the row-count re-checks after an UPDATE inside one transaction are dropped where the same transaction has just read the row. `delivery_attempts` is unbounded.
- **Row order.** The ORDER BY clauses of the reconcile and listing queries, that of pending effects among them, are not modelled: rows are selected in an arbitrary order, and results are stated up to order.
- **Exact error texts.** Error kinds are kept where a caller branches on them; message strings other than the durable lease-expiry reason are not.
- **Validation of configurations.** Prompt manifests, digests, URLs and transports are not part of this model: `create_session` accepts every configuration. Identifiers of delegations, events, workers and claims are plain strings in the store.
- **JSON and SHA-256.** Values are opaque; the argument codec is a parameter assumed to read back what it writes. Row payloads are stored as values.
- **Clocks, processes, sockets, async scheduling.** Timestamps are arbitrary arguments, so a failing clock is not modelled; concurrency is the interleaving of store steps. A crash is the end of a participant's steps.
- **Usage totals, public events and observers** of a turn carry no conversation content and are left out, as is a tool catalogue check of the worker's policy.
- **Post-commit reads.** A snapshot that the source reads back after its commit is taken at the commit.
- **The binding of a background child**, which re-reads the generation before saving, is outside `Bindings.BindingIsFaithful`.
- **What a worker heard between tool calls.** A worker's answer is taken as one text, as Hermes records it; where its pieces fell between tool calls is not modelled. A fork is assumed to hold exactly the history through the bound turn, a fresh thread exactly the projected history, and every started worker turn is assumed to have a thread and turn id of its own.
- **Result status.** What a worker knows of a tool result is compared at success or failure, which is what a live worker is told; the text projected for a fresh thread prints the full status.
- **Freshness.** Delivery claim ids drawn by one gateway are assumed not to be used by anybody else.
- **The gateway's in-process `busy` and `controls` maps, the live approval registry, RPC routing, rendering and resume text**: plumbing around the modelled steps.
- **The wording of a prompt with completions** is a parameter, applied to exactly the completions delivered.
- **The footer text of a file page**; the offset it advertises is modelled.
- **`search_files`, path confinement, glob and directory walking**: foreign library semantics and easy bounds.
- **Direct tools, scripted providers and the contract corpus** are outside the model.
