# Kapi control plane: a verified model

Kapi runs fleets of coding agents. Its control plane is a leased job queue, an
ordered event stream and several ledgers in one database, shared by replicas that
crash, retry and race. This project models those parts in Dafny and proves what
they promise over every history.

`dafny verify dfyconfig.toml` checks everything.

## What is modelled

| files | part |
|---|---|
| `HubModel`, `HubProofs`, `HubReactions`, `EventHub` | live event delivery: one run's slice of the hub, its clients, drains and replays |
| `Browser`, `BrowserTab`, `EndToEnd` | the agent tree a browser folds from the stream, hydration, reconnects, and the composition with the hub and the database |
| `SequenceLog`, `CommitOrder` | allocation of event sequence numbers by concurrent transactions that may roll back, and why the queue may take its transactions as steps |
| `QueueModel`, `QueueInvariants`, `QueueProofs`, `QueueRuns`, `QueueTheorems`, `QueueLaws`, `QueueTrees`, `QueueEndings`, `QueueEffects`, `QueueStore` | jobs, leases, dependencies, the spawn tree and the run lifecycle |
| `Transcript`, `AgentLoop` | the agent's turn loop, its durable tool journal and its transcript |
| `Admission`, `ModelLedger`, `Totals` | the model-token ledger |
| `Metering`, `UsageAccounting` | billing of machines |
| `Slots`, `Provisioner` | machine slots and their reconciliation |

Each part has the same shape. A state machine on values says what one atomic step
does: a transaction, or the code between two `await`s. Its invariants are proved
for every step and so for every history. Where the program updates objects or
tables in place, a class does so too, with its loops, and each method is proved
equal to the state machine's step. The main results are the lemmas about whole
histories (`Leads`, `Run`, `Lives`); beside them, each operation's outcome is stated in
terms of the rows and events it leaves behind (`QueueEffects`, `HubReactions`, and the
lemmas called `...Effect`, `...Does` and `...Decides`).

## What is taken for granted

- A transaction is one step for the rows of jobs and runs, except where
  `SpawnDuringFinish` takes `finishRun` apart. For the event streams this is proved:
  `CommitOrder` derives atomic steps from interleaved statements.
- There is one clock and it does not go back.
- `newId` yields identifiers nobody has used or named in a dependency.
- The hashes of the spawn receipt do not collide, so a receipt is keyed by asker
  and request id and compared by its wants.
- A transport that dropped a frame or threw delivers nothing afterwards
  (`apps/control-plane/src/ws.ts` lines 49-52).
- Prices are real numbers; the program computes them in floating point
  (`apps/control-plane/src/accounting.ts` line 58).
- Checkpoints of a job are written by one process at a time.
- The tools of a job do not change between its processes.
- Spawn budgets are positive.
- A claim carries a job token, and `provision` mints one only after the job's agent
  row exists (`apps/control-plane/src/provisioner.ts` lines 280-351).

## Where code and promises differ

- `EndToEnd.ForgedStatusShows`: the plane does not restrict the kinds of events an
  agent posts, and the browser does not look at who sent one, so an agent can make
  its node, or the run, show any status. A view stays true exactly when the event is
  no status or repeats the true one.
- A run is documented to end when its root captain does. `QueueEndings.RunEndsExactly`
  says when it does: exactly when `finishRun` ran for the root or the run was cancelled.
  There are two ways for a root to end without either:
  - it cancels itself through `/agent/cancel-child`, whose ownership query admits the
    caller (`RootMayCancelItself`); then only cancelling the run ends it
    (`CancelledRootNeedsCancelRun`);
  - the plane dies, or `finishRun` throws, after the transaction that ended the root
    (`EndsWithItsRoot`, `ReportLeavesRunOpen`, `DeadRootsEndTheirRuns`); nothing calls
    `finishRun` for that root again (`FinishIsNotRetried`).
- `QueueEndings.SpawnDuringFinish`: `finishRun` cancels the descendants it sees before
  it locks the run row. As one atomic step it leaves nothing alive; a child whose spawn
  commits in between outlives the run (`AnOutlivedRun`). The exact condition is proved.
- `Transcript.BoundedExactly`: with `keepFullSteps` below one the cut index is undefined
  and compaction makes the transcript longer; the bound exists exactly from one on.
- `Slots.OldRowSlipsPast`: an agent row older than its provider column has no provider;
  the reservation that takes it over does not record one either, so it is not counted
  against the caps until its machine is attached. `CapsBreakExactly` is the exact guard.

## Model

| member | source | states |
|---|---|---|
| `HubProofs.ExactDelivery` | apps/control-plane/src/events.ts:77-206 | After any interleaving of commits, publishes in any order, notifications, drain and replay pages, joins, removals, overflow and transport failures, what a client's transport accepted is exactly the log after the cursor it joined with, in order, without gap or repeat; a live client whose transport is up has everything the hub's cursor has passed |
| `HubProofs.NoLostWakeup` | apps/control-plane/src/events.ts:227-249 | While the run stays watched, whenever no drain is active and the run is not dirty, the hub cursor has reached everything committed before the latest drain request, including a request that lands between the drain loop's exit and its `finally` |
| `HubProofs.PollCatchesUp` | apps/control-plane/src/events.ts:219-249 | Polling is a complete recovery path: after one poll in any reachable watched state, whatever the drain is doing, and while somebody keeps watching, the drain does not rest before the hub's cursor has reached everything committed before the poll; it gets there within one turn of the drain and one for each page in between, whatever commits, publishes, joins, replays and failures happen meanwhile, and every live client has it then |
| `HubProofs.DrainArrives` | apps/control-plane/src/events.ts:219-249 | A drain request is never taken back by anything that happens while the run is watched, and each turn of the drain brings it closer |
| `HubReactions.MissedIsFetched` | apps/control-plane/src/events.ts:138-169 | In any reachable watched state an event published out of order, or a notification of one the hub has not reached, asks for everything committed so far whatever the drain is doing; while somebody keeps watching the drain does not rest before the cursor is there, and every live client has it then |
| `HubReactions.NextInLine` | apps/control-plane/src/events.ts:148-176 | Publishing the next event moves the cursor over it and over exactly the contiguous events held behind it |
| `HubReactions.OldNews` | apps/control-plane/src/events.ts:138-150 | A publish or notification of what the hub has passed changes nothing |
| `HubReactions.ExitClears` | apps/control-plane/src/events.ts:227-249 | A drain that has come to its end leaves no mark behind |
| `HubReactions.ReplayArrives` | apps/control-plane/src/events.ts:104-126 | Whatever happens meanwhile, once as many history pages have arrived for a client as reach beyond the log, it is live or has left, and has everything the hub has passed if its transport is up |
| `HubReactions.ClosedForCause` | apps/control-plane/src/events.ts:178-206 | In one step a transport closes only if it disconnects, takes no more, or too much piles up during its replay; a client is unregistered only by leaving or with its transport, and always if that throws; each frame accepted costs one |
| `HubReactions.JoinEffect` | apps/control-plane/src/events.ts:77-106 | A client that joins is registered, replays from its cursor, and nobody else notices |
| `HubReactions.RemoveEffect` | apps/control-plane/src/events.ts:85-89 | A client that leaves is unregistered; with the last one the run's cursor goes and what was held out of order |
| `HubProofs.HandOverKeeps` | apps/control-plane/src/events.ts:112-126 | The replay-to-live hand-over sends everything fanned out meanwhile exactly once, after the history, and leaves the client in step |
| `HubProofs.InOrderIsLog` | apps/control-plane/src/events.ts:122-125 | A buffer that holds a contiguous range comes out, sorted by sequence number, as that range of the log |
| `HubProofs.NextKeeps` | apps/control-plane/src/events.ts:77-249 | Every step keeps all clients exact and the hub awake |
| `EventHub.EventHub.SendAll` | apps/control-plane/src/events.ts:107 | A page is sent row by row, in order |
| `EventHub.EventHub.FanOut` | apps/control-plane/src/events.ts:178-193 | Every registered client gets the row once, live clients now and replaying ones in their buffer; a buffer over 2000 closes its client; nobody else changes |
| `EventHub.EventHub.Ingest` | apps/control-plane/src/events.ts:148-169 | In-order events advance and flush the buffer as far as it is contiguous; later ones are buffered and request a drain; the rest is dropped |
| `EventHub.EventHub.RequestDrain` | apps/control-plane/src/events.ts:227-233 | Marks a watched run dirty and starts a drain if none is active |
| `EventHub.EventHub.Publish` | apps/control-plane/src/events.ts:134-136 | One step of the model: a committed event is offered to the hub |
| `EventHub.EventHub.Notified` | apps/control-plane/src/events.ts:138-146 | One step of the model: a notification beyond the cursor requests a drain |
| `EventHub.EventHub.DrainPage` | apps/control-plane/src/events.ts:235-241 | One step of the model: a drain page is ingested, and a full page asks for the next from the new cursor |
| `EventHub.EventHub.DrainSettles` | apps/control-plane/src/events.ts:243-246 | One step of the model: the drain ends, and a mark left behind starts another |
| `EventHub.EventHub.Sorted` | apps/control-plane/src/events.ts:123 | The buffer in ascending order of sequence numbers |
| `EventHub.EventHub.HandOver` | apps/control-plane/src/events.ts:115-126 | The buffered events go out in order and the client is live |
| `EventHub.EventHub.ReplayPage` | apps/control-plane/src/events.ts:104-126 | One step of the model: a history page is sent; a short one hands over, a full one asks for the next unless the client is gone |
| `EndToEnd.AppliedExactly` | apps/web/src/lib/useRunStream.ts:38-70 | Over any sequence of hub steps, hydration pages, connects, losses and reconnects, the tab has applied exactly the first `cursor` events of the log once each in order to whatever snapshot seeded it, up to the fields late job rows enrich; every frame it reads is the next event |
| `EndToEnd.TabShowsDatabase` | apps/web/src/lib/agents.ts:76-170 | Where the cursor equals `event_seq` of a reachable database state, every job of the run has a node showing that state's job status, whatever snapshot seeded the tab, and the run's own status shows once the stream has mentioned it; agents must not forge statuses |
| `EndToEnd.ForgedStatusShows` | apps/control-plane/src/agent-api.ts:149-166 | The plane accepts any event kind from an agent and the fold ignores the sender: a view that agrees with the database on every job of the run and on the run itself still agrees after a posted event if and only if the event is no status, of a job or of a run, or repeats the true one |
| `EndToEnd.ReadingCatchesUp` | apps/web/src/lib/useRunStream.ts:47-62 | Reading what a live connection was sent brings the tab at least as far as the hub |
| `EndToEnd.HydrationEnds` | apps/web/src/lib/useRun.ts:45-62 | Whatever happens meanwhile, once as many history pages have arrived as reach beyond the log, the tab streams |
| `EndToEnd.OpenEffect` | apps/web/src/lib/useRun.ts:45-62 | Opening reads history at once and folds it into the seed; a short page starts streaming, a full one asks for the next |
| `EndToEnd.ConnectEffect` | apps/web/src/lib/useRunStream.ts:28-47 | A connection joins the hub at the tab's cursor, losing one loses nothing, and a waiting frame is read |
| `EndToEnd.ShownIsReported` | apps/web/src/lib/agents.ts:149-170 | With honest agents the status the stream shows for a job is the last one the plane reported |
| `EndToEnd.HubGrows` | apps/control-plane/src/events.ts:77-249 | Whatever the hub does, clients stay where they joined and nothing sent or committed is taken back |
| `Browser.ReplayStatus` | apps/web/src/lib/agents.ts:114-170 | A node shows the status the stream last gave it; only a job the stream never mentioned keeps its seeded one |
| `Browser.ReplayFields` | apps/web/src/lib/agents.ts:149-192 | In every field the last word wins: spawner, machine, attempts and summary as last named, the last failure's reason unless a success came after it, and seeded values where the stream is silent |
| `Browser.ReplayTrace` | apps/web/src/lib/agents.ts:140-146 | An agent's trace is exactly the last 400 of the lines the stream has for it |
| `Browser.ReplayListed` | apps/web/src/lib/agents.ts:130-138 | Discovery order never changes once shown and lists every node exactly once |
| `Browser.MergeKeepsStory` | apps/web/src/lib/agents.ts:291-309 | A late job row changes no status, parent, order or trace |
| `Browser.ApplyKeepsStory` | apps/web/src/lib/agents.ts:114-278 | Two views that tell the same story tell the same story after any event |
| `Browser.MergedShowsRow` | apps/web/src/lib/agents.ts:291-309 | An enriched node shows the row as if seeded from it, in attempts, machine, summary and error, wherever the row has something; a success shows no error; no other node changes |
| `Browser.SeedShowsRows` | apps/web/src/lib/agents.ts:76-97 | A seeded view lists the jobs in the order given and shows every column of each |
| `Browser.MergeOfSeed` | apps/web/src/lib/agents.ts:291-309 | Merging the row a node was seeded from changes nothing |
| `BrowserTab.Tab.SeedFromJobs` | apps/web/src/lib/agents.ts:76-97 | The seeding loop yields the seed view of the job rows in the order given |
| `BrowserTab.Tab.Hydrate` | apps/web/src/lib/useRun.ts:45-62 | The hydration loop ends with the view folded from exactly the first `cursor` events, and the cursor is everything that was committed at its last read |
| `BrowserTab.Tab.OnMessage` | apps/web/src/lib/useRunStream.ts:47-62 | A frame at or below the cursor changes nothing; any other moves the cursor to it and is applied once; the job is re-read if and only if such a frame reports its success or failure for the first time (`apps/web/src/lib/useRun.ts` lines 76-93) |
| `BrowserTab.Tab.OnJobRead` | apps/web/src/lib/agents.ts:291-309 | A re-read row enriches its node and leaves the story as it was |
| `SequenceLog.GapFree` | packages/queue/src/events.ts:15-40 | However transactions interleave statement by statement, wait and roll back, the committed events of every run are at every moment numbered exactly 1..`event_seq` |
| `SequenceLog.ReadsArePrefixes` | packages/queue/src/events.ts:15-40 | Whatever is read of a run is a prefix of what is read of it later |
| `SequenceLog.CommitAppendsAtOnce` | packages/queue/src/events.ts:15-40 | Nothing of a transaction shows before its commit, which adds its events in the order written, and each number it was handed is the position its event then has |
| `SequenceLog.OneWriterPerRun` | packages/queue/src/events.ts:15-18 | No two open transactions hold the same run row |
| `SequenceLog.HoldTakes` | packages/queue/src/events.ts:15-18 | A statement that locks a free run row has it from then on |
| `SequenceLog.HeldIsFrozen` | packages/queue/src/events.ts:15-18 | While a transaction holds a run row, no act of another one adds an event to the run, changes its counter or takes the row |
| `CommitOrder.Serializable` | packages/queue/src/events.ts:15-40 | However transactions interleave, wait and roll back, the committed rows are those of the same transactions run one at a time in the order of their commits: same events, same order, same numbers |
| `CommitOrder.QueueIsPerformed` | packages/queue/src/events.ts:1-40 | Whenever the transactions that commit write what the steps of a queue history write, in the order of their commits, every run's committed stream and counter are those the history ends with: the laws of the queue hold of the interleaved database |
| `CommitOrder.Performable` | packages/queue/src/events.ts:15-40 | Every queue history is performed by some sequence of statements |
| `QueueStore.Store.EnqueueIn` | packages/queue/src/lifecycle.ts:37-67 | Inserts a queued job, reports it and counts it |
| `QueueStore.Store.OpenRun` | apps/control-plane/src/run-service.ts:52-85 | Opens a run together with its root captain |
| `QueueStore.Store.Claim` | packages/queue/src/claim.ts:29-76 | Hands out a best eligible unlocked job by priority and then age, with its lease and its event; if there is none, nothing changes |
| `QueueStore.Store.Complete` | packages/queue/src/lifecycle.ts:119-141 | Succeeds the job for the holder only |
| `QueueStore.Store.Fail` | packages/queue/src/lifecycle.ts:148-175 | Requeues or dead-letters the job for the holder only |
| `QueueStore.Store.SelectExpired` | packages/queue/src/reaper.ts:26-34 | A batch of at most `limit` expired unlocked jobs, the longest expired first, and all of them if they fit |
| `QueueStore.Store.Reap` | packages/queue/src/reaper.ts:17-60 | Every job of the batch is requeued or dead-lettered with its event, and nothing else changes |
| `QueueStore.Store.Subtree` | packages/queue/src/lifecycle.ts:187-191 | The level-by-level recursive query terminates and yields exactly the reflexive-transitive descendants |
| `QueueStore.Store.CancelSubtree` | packages/queue/src/lifecycle.ts:182-216 | Cancels the live members of the subtree and returns them in order |
| `QueueStore.Store.StartRun` | apps/control-plane/src/run-lifecycle.ts:41-56 | Announces a queued run as running, once |
| `QueueStore.Store.FinishRun` | apps/control-plane/src/run-lifecycle.ts:73-141 | Cancels everything beneath the root, writes the closing turn and closes the run, unless it was over |
| `QueueStore.Store.CancelRun` | apps/control-plane/src/run-lifecycle.ts:144-190 | Cancels every live job of the run and closes it, unless it was over |
| `QueueStore.Store.DepthOf` | apps/control-plane/src/agent-api.ts:215-227 | How far below its run's root a job sits |
| `QueueStore.Store.SpawnLoop` | apps/control-plane/src/agent-api.ts:299-354 | Going through the wants one by one creates exactly the admitted prefix and refuses the rest |
| `QueueStore.Store.Spawn` | apps/control-plane/src/agent-api.ts:266-366 | The whole spawn transaction: the new state and the reply, a stored receipt or a conflict |
| `QueueStore.Store.AgentComplete` | apps/control-plane/src/agent-api.ts:449-488 | The report, the review and, when it was the root's last word, the end of its run, as far as a plane gets that dies after `reach` of these transactions |
| `QueueStore.Store.OnReap` | apps/control-plane/src/run-lifecycle.ts:207-218 | Finishes the run of every root that is dead-lettered in the rows the reaper returned, except where `finishRun` throws |
| `QueueStore.SelectionsAreSteps` | packages/queue/src/claim.ts:41-54 | What `claim` and `reap` may select, under any locks, are steps of the histories all laws are about |
| `QueueTheorems.Reachable` | packages/queue/src/lifecycle.ts:37-216 | Every history of queue and run transactions keeps all the invariants |
| `QueueTheorems.LeadsGrows` | packages/queue/src/lifecycle.ts:37-216 | Over any history streams only grow, rows keep their identity and what is over stays as it ended |
| `QueueLaws.NoRunOutlivesItsWork` | apps/control-plane/src/run-lifecycle.ts:73-190 | In every reachable state a run that is over has no queued, claimed or running job, was announced over exactly once, and its thread got one closing turn if its captain ended it and none if it was cancelled |
| `QueueLaws.StreamReproducesState` | packages/queue/src/lifecycle.ts:37-216 | Replaying a run's events gives every job's status and the run's status, and their number is `event_seq` |
| `QueueLaws.NothingOverChanges` | packages/queue/src/lifecycle.ts:119-216 | Terminal jobs and ended runs never change again, in any later history |
| `QueueLaws.LeaseMeansHolder` | packages/queue/src/claim.ts:35-40 | A job is leased exactly when it carries a lease; then it has a holder, and a queued job has none |
| `QueueLaws.NeverHandedOutTwice` | packages/queue/src/claim.ts:33-58 | Between two `claimed` reports of a job there is a `queued` one |
| `QueueLaws.TerminalReportsAreLast` | packages/queue/src/lifecycle.ts:119-216 | A terminal report of a job is its last |
| `QueueLaws.EvictedStaysOut` | packages/queue/src/lifecycle.ts:76-175 | Once a machine does not hold a job, its heartbeat, start, result and failure change nothing in any later state until it claims the job again |
| `QueueLaws.BoundedLife` | packages/queue/src/claim.ts:35-46 | Attempts never exceed the maximum and a job is reported at most 3 * maximum + 1 times |
| `QueueLaws.TransitionsSpendLife` | packages/queue/src/lifecycle.ts:148-175 | At every transaction a job keeps its status and attempts or its measure, remaining attempts first and progress second, strictly falls |
| `QueueLaws.SpawnBudgetsHold` | apps/control-plane/src/agent-api.ts:215-366 | In every reachable state a run counts exactly its jobs, within its spawn limit, and every job is within its depth limit |
| `QueueLaws.DependenciesFirst` | packages/queue/src/claim.ts:43-53 | Every `claimed` event is preceded in the stream by a `succeeded` event of each existing same-run dependency |
| `QueueLaws.GateStaysOpen` | packages/queue/src/claim.ts:47-50 | A job that was ever claimed has all its existing dependencies succeeded in every later state, and no missing one ever comes to exist |
| `QueueTrees.CancelSubtreeExact` | packages/queue/src/lifecycle.ts:182-216 | Exactly the live members of the descendant closure become cancelled, all other rows stay, and the stream gains one report each and nothing else |
| `QueueTrees.OwnershipExact` | apps/control-plane/src/agent-api.ts:426-437 | The ownership query admits the caller's descendants and the caller itself, and nobody else |
| `QueueTrees.CancelChildStaysInside` | apps/control-plane/src/agent-api.ts:418-443 | No job outside the caller's own subtree is touched, in its run or another |
| `QueueTrees.SpawnOnce` | apps/control-plane/src/agent-api.ts:281-290 | However often a request id is repeated and whatever happens in between, it gets its first answer, or a conflict for other wants, and creates nothing |
| `QueueTrees.SpawnExact` | apps/control-plane/src/agent-api.ts:291-366 | A new request gets a prefix of its wants, each as one queued child of the asker, nothing else changes, and something is refused only if the run is over, the asker is at the depth limit or the budget is now used up to the last job |
| `QueueEffects.EveryTurn` | packages/queue/src/lifecycle.ts:37-216 | In every transaction every job stays or takes one of these turns: a claim costs an attempt and gives a holder and a lease; only a leased job succeeds or is given back; it goes back to the queue, freed of its holder, only with attempts left, and dies only without; whoever is not over can be cancelled; and a lease can be extended |
| `QueueEffects.ClaimEffect` | packages/queue/src/claim.ts:33-76 | A claim hands the job to the machine with a lease, spends one attempt and reports it; nothing else changes |
| `QueueEffects.ClaimPicks` | packages/queue/src/claim.ts:41-54 | No job the claim might have taken has a higher priority, or the same and is older |
| `QueueEffects.StartEffect` | packages/queue/src/lifecycle.ts:98-116 | The holder's start takes effect and is reported; anybody else's changes nothing |
| `QueueEffects.BeatEffect` | packages/queue/src/lifecycle.ts:76-95 | The holder's heartbeat moves the lease, so the job expires exactly after the new instant; anybody else's changes nothing |
| `QueueEffects.CompleteEffect` | packages/queue/src/lifecycle.ts:119-141 | The holder's result is stored and reported; anybody else's changes nothing |
| `QueueEffects.FailEffect` | packages/queue/src/lifecycle.ts:148-175 | The holder's failure sends the job back to the queue, freed of its holder, if and only if attempts are left, and kills it otherwise; the report names which; anybody else's changes nothing |
| `QueueEffects.ReapEffect` | packages/queue/src/reaper.ts:17-60 | Every job of the batch goes back to the queue if attempts are left and dies otherwise, no other row changes, and each run's stream gains exactly the reports of its own |
| `QueueEffects.FailedOnlyWhenUsedUp` | packages/queue/src/lifecycle.ts:148-175 | In every history the plane reports a job failed only when all its attempts are used up |
| `QueueEffects.OpenRunEffect` | apps/control-plane/src/run-service.ts:52-85 | A new run is queued with its root captain as its only job and that job's report as its only event |
| `QueueEffects.SpawnEffect` | apps/control-plane/src/agent-api.ts:299-354 | Each job a request creates is a new child of the asker, made as asked for, and the stream gains exactly its report and its announcement by the asker |
| `QueueEffects.StartRunEffect` | apps/control-plane/src/run-lifecycle.ts:41-56 | The first start announces a queued run as running, and no later one does anything |
| `QueueEffects.CancelRunExact` | apps/control-plane/src/run-lifecycle.ts:144-190 | Cancelling an open run cancels exactly its own live jobs for that reason; its stream gains one report for each and then its ending; no turn is written and no other run, row, stream or thread changes |
| `QueueEffects.FinishRunExact` | apps/control-plane/src/run-lifecycle.ts:73-141 | Finishing an open run cancels exactly what is alive beneath the root; the stream gains one report for each and then the ending; no other run, row or stream changes |
| `QueueEffects.FinishRunAnswers` | apps/control-plane/src/run-lifecycle.ts:73-141 | The thread gets one turn: the root's summary, else its error, else the bare fact; no other thread changes |
| `QueueEffects.PostEffect` | apps/control-plane/src/agent-api.ts:149-166 | What an agent posts is one event of its own run under its own address |
| `QueueEffects.CancelChildExact` | apps/control-plane/src/agent-api.ts:418-443 | If the target is the caller or beneath it, exactly what is alive beneath the target is cancelled; any other target changes nothing |
| `QueueEndings.RunEndsExactly` | apps/control-plane/src/run-lifecycle.ts:73-190 | Over any history from a reachable state in which a run is open, the run is over at the end if and only if `finishRun` ran for its root or the run was cancelled on the way, whatever else happened to its root |
| `QueueEndings.RootMayCancelItself` | apps/control-plane/src/agent-api.ts:418-443 | A live root is ended by an agent's cancellation if and only if it cancels itself through its own token; the run's status stays and nothing in it is alive |
| `QueueEndings.CancelledRootNeedsCancelRun` | apps/control-plane/src/run-lifecycle.ts:144-190 | Once its root is cancelled, an open run ends in any later history if and only if it is cancelled as a run |
| `QueueEndings.EndsWithItsRoot` | apps/control-plane/src/agent-api.ts:449-488 | When its root reports its result or last failure, an open run ends if and only if the plane lives through all transactions of the handler: completed or failed accordingly, nothing in it lives on, and the thread is answered with the captain's closing words |
| `QueueEndings.OnlyRootsEndRuns` | apps/control-plane/src/agent-api.ts:449-488 | The report of a job below the root, a failure that leaves the root attempts, or a report from anybody but the holder ends no run |
| `QueueEndings.ReviewTravels` | apps/control-plane/src/agent-api.ts:465-483 | Before it comes to the run the handler leaves the report and then, once it gets that far, the review as an event of the agent's own |
| `QueueEndings.ReportLeavesRunOpen` | apps/control-plane/src/agent-api.ts:458-463 | The first of these transactions ends the root and leaves its run as it was |
| `QueueEndings.FinishIsNotRetried` | apps/control-plane/src/agent-api.ts:458-487 | Once a root is over no later report about it is accepted and no reaper finds it, so neither caller of `finishRun` calls it for that root again |
| `QueueEndings.DeadRootsEndTheirRuns` | apps/control-plane/src/run-lifecycle.ts:207-218 | When the reaper's hook runs, however long after its batch, the open run of a root that is over by then ends if and only if that batch had dead-lettered the root and `finishRun` went through for it |
| `QueueEndings.SpawnDuringFinish` | apps/control-plane/src/run-lifecycle.ts:78-125 | If other transactions commit between the sweep of `finishRun` and its lock on the run row, the run is over afterwards and has nothing alive in it if and only if every job they created in it is over |
| `QueueEndings.ChildOutlivesRun` | apps/control-plane/src/run-lifecycle.ts:78-125 | From every reachable state one spawn granted in that gap leaves its child queued in a run that is over |
| `QueueEndings.AnOutlivedRun` | apps/control-plane/src/run-lifecycle.ts:78-125 | A history from the empty database and a spawn with which that happens |
| `QueueEndings.FinishInOneGo` | apps/control-plane/src/run-lifecycle.ts:73-141 | With nothing committed in the gap the two halves are the one step the other laws are about |
| `Transcript.CompactMessages` | packages/agent-core/src/loop.ts:32-83 | The two loops compute the compacted transcript and summary |
| `Transcript.CompactWindow` | packages/agent-core/src/loop.ts:32-47 | With a window of at least one step the brief stays and as many steps as fit are kept |
| `Transcript.CompactCuts` | packages/agent-core/src/loop.ts:47-82 | When the window is full, what is sent is the brief, the summary if any, and a suffix that begins at an assistant turn and has exactly `keepFull` steps |
| `Transcript.CompactIdempotent` | packages/agent-core/src/loop.ts:32-83 | Compacting again changes nothing |
| `Transcript.CompactKeepsPairs` | packages/agent-core/src/loop.ts:39-49 | A tool-call turn is never separated from its results, and the outcome has at most 2 + 2 * `keepFull` messages |
| `Transcript.SummaryNames` | packages/agent-core/src/loop.ts:51-73 | The summary names, with its number, the action of every call whose step it replaces, and numbers it by its place among them in decimal digits |
| `Transcript.ActionsAreShort` | packages/agent-core/src/loop.ts:55-64 | However long a command is, what the summary says about a call stays short |
| `Transcript.BoundedExactly` | packages/agent-core/src/loop.ts:45-49 | What is sent stays bounded over all well-formed transcripts if and only if the window is at least one step |
| `AgentLoop.World.Save` | packages/agent-core/src/loop.ts:125-126 | A checkpoint is acknowledged and stored, or the process ends with it stored or not |
| `AgentLoop.World.RunCall` | packages/agent-core/src/loop.ts:191-239 | One call is durable before and after it runs: a known tool is executed exactly once and what it returned becomes the result, an unknown one is answered and not executed, a command found already started is not run again; the job is finished if and only if the tool is terminal and succeeded |
| `AgentLoop.World.Perform` | packages/agent-core/src/loop.ts:212-237 | Once the store knows the call has started the tool runs, and its output becomes the result |
| `AgentLoop.World.RunCalls` | packages/agent-core/src/loop.ts:190-239 | The calls of a response in order, each known one executed once and answered by what it returned, until one ends the job, the lease is lost or a command is uncertain |
| `AgentLoop.World.Prepare` | packages/agent-core/src/loop.ts:134-148 | The step is counted and the transcript compacted; the prompt is well paired, at most 2 * `keepFull` + 3 messages long, and asks the agent to land in exactly the last two steps |
| `AgentLoop.World.Record` | packages/agent-core/src/loop.ts:161-189 | A nudge, or the model's intent, is durable before any external effect |
| `AgentLoop.World.Ask` | packages/agent-core/src/loop.ts:132-189 | A new step asks the model exactly once and records its intent, or a nudge if it called nothing; it stops only if the model fails or has spent its budget |
| `AgentLoop.World.Turn` | packages/agent-core/src/loop.ts:132-250 | One turn: one model call for a new step and none for a pending one; when it closes the step, every known call has been executed once and answered, all of them unless one ended the job, and the transcript has the answers behind it |
| `AgentLoop.World.RunLoop` | packages/agent-core/src/loop.ts:93-268 | One process, from the stored checkpoint to wherever it ends, keeps the journal, makes at most one model call for each step left, and executes nothing when it finds an uncertain command; it ends only finished, out of steps or for a cause outside it, it ends so whenever there is such a cause, and what is finished stays finished |
| `AgentLoop.World.Lives` | packages/agent-core/src/loop.ts:93-268 | Any number of processes one after another: executions never go back, commands run at most once, prompts stay short and paired, and after an uncertain command nothing ever runs again |
| `AgentLoop.CommandsRunOnce` | packages/agent-core/src/loop.ts:206-212 | A journalled command is executed in its place of the job at most once, over all restarts |
| `AgentLoop.NeverBack` | packages/agent-core/src/loop.ts:191-243 | Once a later call has run, no earlier one runs again |
| `AgentLoop.EveryWorld` | packages/agent-core/src/loop.ts:191-243 | Both hold in every state any number of processes can bring about |
| `AgentLoop.RunsInOrder` | packages/agent-core/src/loop.ts:206-237 | Running the current call for the first time in its place keeps the order and the journal |
| `Admission.BudgetHolds` | apps/control-plane/src/model-admission.ts:14-60 | In every history a run is charged exactly the sum of its receipts; the foreseen part of the charges plus what is reserved never exceeds its allowance, so any overshoot is the calls' own excess; it never makes more calls than it may |
| `Admission.ConcurrencyHolds` | apps/control-plane/src/model-admission.ts:24-29 | Unexpired reservations of a run or user never exceed the limits |
| `Admission.SettlementConfluent` | apps/control-plane/src/model-admission.ts:44-75 | However settlements, expiries and reconciliations interleave, a call is reserved or charged but never both, and is charged the first measured usage or what it reserved |
| `Admission.ChargedOnce` | apps/control-plane/src/model-admission.ts:44-60 | A reserved call settled any number of times charges its run once: the first measured usage wherever it comes, or the reserved amount |
| `Admission.AdmitsExactly` | apps/control-plane/src/model-admission.ts:20-32 | A call is admitted if and only if its run has not ended, run and user are below their limits, a request is left, and it fits into what is neither charged nor held; else the first reason that applies is given |
| `Admission.NoCallAfterTheEnd` | apps/control-plane/src/model-admission.ts:20-22 | Once a run has ended no call of it is admitted in any later state |
| `Admission.OpensFresh` | apps/control-plane/src/model-admission.ts:20-32 | The first call of a new run is admitted if and only if it fits the limits by itself |
| `Admission.ReserveEffect` | apps/control-plane/src/model-admission.ts:33-39 | An admitted call is reserved as asked and counted once; a refused one leaves no trace |
| `Admission.ExpireEffect` | apps/control-plane/src/model-admission.ts:63-67 | A reservation that has run out is charged as reserved and not held any more; one that has not stays |
| `Admission.ReconcileEffect` | apps/control-plane/src/model-admission.ts:70-75 | With evidence, a measured usage replaces an estimate and charges the difference; a measured charge stays, and without evidence or receipt nothing happens |
| `ModelLedger.Ledgers.HeldBy` | apps/control-plane/src/model-admission.ts:27 | The sum of the run's reservations, expired or not |
| `ModelLedger.Ledgers.Check` | apps/control-plane/src/model-admission.ts:20-32 | The verdict of the admission checks in their order |
| `ModelLedger.Ledgers.Reserve` | apps/control-plane/src/model-admission.ts:14-39 | Books a reservation and counts the request exactly when admitted |
| `ModelLedger.Ledgers.SettleCall` | apps/control-plane/src/model-admission.ts:44-60 | Moves a reservation or estimate into its receipt and charges the difference; a negative usage is refused |
| `ModelLedger.Ledgers.SettleExpired` | apps/control-plane/src/model-admission.ts:63-67 | Settles at most a sweep of overdue reservations, and all of them if they fit |
| `ModelLedger.Ledgers.ReconcileUsage` | apps/control-plane/src/model-admission.ts:70-75 | Takes effect only with evidence and an existing receipt |
| `Metering.ScheduleIndependent` | apps/control-plane/src/accounting.ts:39-80 | Whatever settlements came before, once nothing is due at an instant a machine has been billed exactly the whole seconds from its attachment to that instant's cap |
| `Metering.BilledToTheStop` | apps/control-plane/src/accounting.ts:44-53 | With nothing due at an instant, a machine has been billed exactly the whole seconds from its attachment to its stop, or to that instant if it still runs |
| `Metering.NothingPastTheStop` | apps/control-plane/src/accounting.ts:51-53 | In no history is a machine billed past its stop |
| `Metering.StopEndsTheBill` | apps/control-plane/src/accounting.ts:51-53 | Whatever happens after a stop, as long as the row is neither attached again nor revived, no more than the time up to it is billed |
| `Metering.SettleWrites` | apps/control-plane/src/accounting.ts:51-79 | One settlement writes one row, from where billing stood over all whole seconds to the last instant, priced to half a millionth or unpriced, and moves only that machine's and that run's figures |
| `Metering.AttachBegins` | apps/control-plane/src/provisioner.ts:336-341 | Billing begins when a machine is attached, under its provider |
| `Metering.AggregatesAreTheLedger` | apps/control-plane/src/accounting.ts:60-78 | A run's seconds and micros are the sums of its ledger rows, its cents the micros rounded down, its cost status exactly what its rows amount to, and the conflict clause never swallows a row |
| `Metering.PeriodsNeverOverlap` | apps/control-plane/src/accounting.ts:51-67 | Ledger periods of a job are whole seconds and never overlap, also across re-attachment |
| `Metering.RoundingBounded` | apps/control-plane/src/accounting.ts:58-78 | In every history in which a run's machines are settled at one rate, its bill is off from the exact price of its seconds by at most half a millionth of a dollar for each of its ledger rows |
| `Metering.LedgerRounding` | apps/control-plane/src/accounting.ts:58 | The same of any ledger, however the run's time is cut into rows |
| `Metering.OnePassIsEnough` | apps/control-plane/src/accounting.ts:39-68 | One settlement bills a due machine up to the cap and affects no other's being due |
| `UsageAccounting.Accountant.Select` | apps/control-plane/src/accounting.ts:44-47 | The due unlocked row billed through the earliest instant, or none if there is none |
| `UsageAccounting.Accountant.Bill` | apps/control-plane/src/accounting.ts:51-79 | Settles the selected row |
| `UsageAccounting.Accountant.Settle` | apps/control-plane/src/accounting.ts:25-37 | A pass reports what it wrote, keeps the books, and if it stopped early leaves nothing unlocked due |
| `Slots.CapsHold` | apps/control-plane/src/provisioner.ts:247-346 | Over any interleaving of reservations, ambiguous and late provider responses, timeouts, releases, reclaims, reconciliations and claims from the empty table, rows holding a resource never exceed the global or any user's cap, after any step |
| `Slots.CapsBreakExactly` | apps/control-plane/src/provisioner.ts:247-346 | From any table within the caps a statement breaks them if and only if it attaches a machine to a live provisioning row that holds no slot while the global or its owner's count has reached its cap |
| `Slots.CapsHoldExactly` | apps/control-plane/src/provisioner.ts:247-346 | A history stays within the caps throughout if and only if no attachment in it does that |
| `Slots.ReservationCounts` | apps/control-plane/src/provisioner.ts:280-290 | A reservation adds a holder at once if and only if it does not take over a row without a provider; once the machine is attached it always does |
| `Slots.OldRowSlipsPast` | apps/control-plane/src/provisioner.ts:280-290 | With a row older than the provider column, two jobs come to hold the only slot |
| `Slots.BatchFits` | apps/control-plane/src/provisioner.ts:133-188 | A batch never picks more of a run's jobs than its cap leaves room for |
| `Slots.LeftOutForRoom` | apps/control-plane/src/provisioner.ts:133-188 | A candidate fits if and only if its place is within its run's room, and if it does not, every place within the room is taken by one that does |
| `Slots.ReservationLive` | apps/control-plane/src/provisioner.ts:271-290 | A reservation never brings a run's live rows above its cap |
| `Slots.ReserveDoes` | apps/control-plane/src/provisioner.ts:247-290 | A slot goes to a queued job whose row is new or stopped and empty exactly if both caps, its run's own, the run's status and its budgets allow; nobody else is touched |
| `Slots.AttachDoes` | apps/control-plane/src/provisioner.ts:336-345 | A machine is attached exactly while the row waits for it, and the row names it from then on |
| `Slots.UnknownDoes` | apps/control-plane/src/provisioner.ts:324-330 | A failed creation keeps its slot, marked unknown, while it is still this attempt's |
| `Slots.ResolveDoes` | apps/control-plane/src/provisioner.ts:223-230 | A late machine is taken over exactly if its reservation still stands for it |
| `Slots.ReleaseDoes` | apps/control-plane/src/provisioner.ts:397-402 | A failed start stops the row and gives the machine back exactly if it is deleted |
| `Slots.ClaimDoes` | apps/control-plane/src/agent-api.ts:99-107 | A claim makes the row live; its machine stays if it has a provider |
| `Provisioner.Plane.Check` | apps/control-plane/src/provisioner.ts:247-278 | The verdict of all checks under the locks: both caps, the queued job, the run's status, its own cap and its budgets |
| `Provisioner.Plane.Reserve` | apps/control-plane/src/provisioner.ts:247-290 | Takes the slot exactly when there is room and the row may be taken |
| `Provisioner.Plane.Provision` | apps/control-plane/src/provisioner.ts:238-375 | The whole attempt, with anything going on elsewhere while it waits for the provider: its statements and everybody else's are one history of the table that keeps the caps throughout; a machine is given up only if nothing waits for it any more, and a failed creation is marked unknown |
| `Provisioner.Plane.LateResponse` | apps/control-plane/src/provisioner.ts:223-230 | A late response resolves its own reservation or is refused |
| `Provisioner.Plane.ResolveFound` | apps/control-plane/src/reconciler.ts:45-57 | Machines that carry a row's reservation resolve it, the first of them wins |
| `Provisioner.Plane.MarkMissing` | apps/control-plane/src/reconciler.ts:69-91 | Reservations nothing was found for are freed after the grace period, and rows are lost exactly if their machine has vanished (see `ReconcileDecides`) |
| `Provisioner.Plane.Reconcile` | apps/control-plane/src/reconciler.ts:32-94 | Every row becomes what the inventory says: a running row is lost if and only if its machine has vanished or is dead; a reservation takes the first machine with its labels unless it may still be starting, and with none is given up once overdue; nothing else changes |
| `Provisioner.Plane.ClaimUpsert` | apps/control-plane/src/agent-api.ts:99-107 | A claimed row keeps its machine if it has a provider and takes the caller's name otherwise |
| `Provisioner.Plane.ReapStale` | apps/control-plane/src/provisioner.ts:411-434 | Exactly the stale provisioning rows of queued jobs with this provider are timed out, and those whose machine is confirmed deleted give it back |
| `Provisioner.Plane.Reclaim` | apps/control-plane/src/provisioner.ts:470-499 | Exactly the stopped rows whose machine is confirmed deleted give it back |
| `Provisioner.OnlyConfirmedDeletionsFree` | apps/control-plane/src/provisioner.ts:411-499 | A timeout or reclaim frees a slot if and only if the row names a machine, not merely a reservation, and the provider confirms its deletion |
| `Provisioner.ReconcileFreesOnlyAbsent` | apps/control-plane/src/reconciler.ts:45-79 | A pass never adds a holder and frees one if and only if its reservation is overdue and no machine carries its labels |
| `Provisioner.ReconcileDecides` | apps/control-plane/src/reconciler.ts:45-91 | What a pass makes of one row, case by case, from the row and the inventory alone |
| `Provisioner.ExpiryDecides` | apps/control-plane/src/provisioner.ts:411-434 | The timeout stops exactly the rows that are still being provisioned, queued and overdue, and takes the machine exactly if its deletion is confirmed |
| `Provisioner.ReclaimDecides` | apps/control-plane/src/provisioner.ts:470-499 | Reclaiming takes the machine of a stopped row exactly if its deletion is confirmed, and changes nothing else |

## Left out

- HTTP routing, authentication, tokens, parsing and the vault; GitHub and model providers: no core logic of the control plane.
- Delivery to clients that watch every run: their cursor maps are bounded and may redeliver. They count as watchers only.
- Store errors during a drain, closing of the hub, and the size bound that evicts a run's cursor in the middle of an ingest; eviction is a step of its own.
- Agent rows inside the queue's transactions: the slot columns are modelled in `Slots`, where a stop may happen at any time.
- Locks other than the run row's and deadlock retries. Of the anomalies of READ COMMITTED, only the one in `finishRun` is modelled.
- The text of reasons and prompts is shortened, the reaper's error text does not name the machine, and of a job's result only the summary is kept.
- Tools and their effects, files touched, commits, branches and workspace bundles of an agent: the checkpoint carries the journal and the transcript.
- An agent that was evicted and still runs beside its replacement: its checkpoints are refused by the plane, and the model runs processes one after another.
- `toTree`, counters and activity wording of the browser, and the socket's backoff.
- Orphan deletion, cleanup bookkeeping and the in-memory handle map of the provisioner; its batch's order across owners.
- A second machine provider beside the plane's own in the slot table: a row names that one or none.
- A run's live-machine count as an invariant: a claim may revive a stopped row. It is bounded at each reservation.
- Integer widths of database columns: numbers are unbounded.
- The claim that every past action stays named after repeated compaction: a second pass drops the earlier summary.
- QueueStore.Store.Reap: rows and their events are written one job at a time instead of all rows first; the transaction's outcome is the same.
- QueueStore.Store.CancelRun: the run row is closed after its jobs instead of before; the transaction's outcome is the same.
- UsageAccounting.Accountant.Settle: the flag that keeps two passes of one process apart is not modelled.
