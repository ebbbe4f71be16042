# krewhub, modelled in Dafny

krewhub is a control plane: it keeps tasks, the links between them and the
invocations that run them, and moves them along with a handful of small
protocols. This project models the logic of those protocols and proves what
they keep over every run. `dafny verify dfyconfig.toml` checks all of it.

Database tables are maps and sequences; what the program updates in place is a
field of a class whose methods say how it changes. Requests and controller
steps are atomic. Where the program can be interrupted at an await and the
interleaving is the point (event streams, watch notifications, relays,
invocations), the steps between awaits are the actions of a state machine and
the theorems range over all their interleavings. Clocks, HTTP answers, agent
lists and what others do are arbitrary.

| file | what it models |
|---|---|
| `Domain.dfy`, `Graphs.dfy` | task rows; reachability and acyclicity |
| `LinkState.dfy`, `Cascade.dfy`, `CascadeOrder.dfy`, `Links.dfy`, `LinkRuns.dfy`, `LinkMeaning.dfy` | task links: creation guards, revocation, the cascade on termination and its count, safety over all runs |
| `CycleCheck.dfy`, `Attachment.dfy`, `Claims.dfy` | the three-colour cycle check, graph attachment, the gates of a claim |
| `Dispatch.dfy` | one pass of the dispatcher with capacity accounting |
| `AgentPicker.dfy`, `Polling.dfy`, `CycleHistory.dfy`, `DispatchCycle.dfy` | the bounded retry cycle of one graph step: the histories of its calls, and its code |
| `EventStream.dfy` | the server-sent event stream of an invocation |
| `WatchLog.dfy`, `Watch.dfy`, `WatchRuns.dfy`, `Reconnect.dfy`, `WatchOrder.dfy` | the watch log, bounded subscriber queues, reconnecting |
| `ConnectDecoder.dfy` | the framed Connect stream decoder |
| `Lease.dfy` | elicit reservations and the credential relay |
| `Orchestration.dfy`, `LinkFiring.dfy` | the orchestration loop and one-shot link firing |
| `Schema.dfy`, `Invocations.dfy`, `InvocationRuns.dfy` | result schemas and the life of an invocation |
| `TailBuffer.dfy` | the bounded tail of a command's output |

## Where the code and its promises part

Each of these is proved, with the exact condition where there is one.

- The stream of an invocation promises what follows `after`. With an empty
  backlog the cursor starts at -1 instead of `after`, so older events can be
  sent; they are not exactly when a backlog is found or `after` was announced
  before the reader subscribed (`EventStream.WhoIsServed`,
  `EventStream.AfterRespected`).
- The lease must outlive the injection. Since its stamps are whole seconds the
  exact bound is delay + timeout <= lease (`Lease.MutualExclusion`).
- Revoking a pipe removes the dependency even if it was there before the pipe
  (`LinkRuns.CreateThenRevoke`).
- The guards at link creation walk both graphs, but one at a time: a loop that
  alternates between them is let through (`LinkRuns.MixedCycleAccepted`). An
  accepted link closes one exactly when its target already reaches its source
  over both graphs together (`LinkRuns.AcceptedKeepsFlow`).
- `links_revoked` can count a link twice (`CascadeOrder.DiamondCountsFour`). It
  is exact for every order of the rows exactly when the cascade finds no second
  way round one of its links (`CascadeOrder.CountExactWhen`).
- The watch service promises that reconnecting loses nothing. That holds for a
  subscription exactly when no event is put on its queue while an entry it
  should get, not newer than that event, is still in flight
  (`Reconnect.LosslessExactly`, `Reconnect.Overtaken`). `_notify` has no await
  inside and follows the commit directly, but the caller of `record` can be
  cancelled between the two: its entry is then in the log, stays in flight for
  good, and is overtaken by the next one.
- A schema can be accepted whose content check raises something other than
  `ValueError`; the runner then dies and the invocation stays `running`
  (`Schema.CrashesExactlyWhen`, `Invocations.DiesExactlyWhen`).
- A tail buffer of zero bytes would return everything it was given
  (`TailBuffer.TailText.Value`); the program makes its buffers with
  `_TAIL_BYTES = 16 * 1024` only.

## Model

| member | source | states |
|---|---|---|
| `Links.Search` | src/krewhub/routes/links.py:76-85 | the stack-and-seen walk both guards use answers true exactly when the goal is reachable from the start, on every finite graph, cyclic or not |
| `Links.LinkService.WouldCycle` | src/krewhub/routes/links.py:64-85 | true exactly when `from` reaches `to` in the dependency graph of the bundle |
| `Links.LinkService.WouldCycleLinks` | src/krewhub/routes/links.py:88-112 | true exactly when `to` reaches `from` over the active links of the bundle |
| `Links.LinkService.CreateLink` | src/krewhub/routes/links.py:122-240 | the answer is the first check that fails, in the order of the route; the tables change only if the link is accepted, and then exactly by the new link, the spawned task and the dependency of a pipe |
| `Links.LinkService.RevokeLink` | src/krewhub/routes/links.py:280-317 | the four answers, each with its exact condition; an active link becomes revoked and a pipe takes its dependency with it unless another active pipe needs it; nothing else changes |
| `Links.LinkService.CancelTask` | src/krewhub/services/task_service.py:313-334 | succeeds exactly for open, claimed and working tasks; a blocked task is refused; only the status changes |
| `Links.LinkService.HandleRow` | src/krewhub/routes/links.py:360-402 | one row of the cascade's loop keeps the loop invariant: every cancelled task was open, claimed or working and is driven from the root over the links that `LinkMeaning.DriveEdge` names, every handled edge has been followed, the counters match |
| `Links.LinkService.Drive` | src/krewhub/routes/links.py:373-390 | a driven child is cancelled if it can be and the cascade goes on from it, otherwise (a blocked child) the walk stops there; either way the loop invariant holds with the row handled |
| `Links.LinkService.Descend` | src/krewhub/routes/links.py:377-390 | the cascade recurses from a child just cancelled with the shared `seen` set; afterwards the loop invariant holds with the row handled, the child and its summary counted in |
| `Links.LinkService.Frame` | src/krewhub/routes/links.py:343-413 | one call of the recursion, with the shared `seen` set, ends on every link graph, does its whole part of the cascade, and does what the function of the row order `FrameRun` says, its count included; a task already seen changes nothing |
| `Links.LinkService.CascadeOnTermination` | src/krewhub/routes/links.py:323-413 | cancels exactly the doomed tasks (who they are in terms of link kinds and statuses is `LinkMeaning.DoomedBecause`, `DoomedBy` and `DoomedLeast`), lists each once, revokes exactly the active links touching the root or a cancelled task, and reports each dependency removed once: every task has lost exactly the dependencies the report lists for it; the count returned is `FrameRun`'s for the order in which the rows came |
| `Links.LinkService.Cancellation` | src/krewhub/routes/tasks.py:680-709 | the cancel request: 404, 403 and 400 each exactly when due, otherwise the task is cancelled and the cascade runs from it |
| `Links.LinkService.Removal` | src/krewhub/routes/tasks.py:912-930 | the delete request: only an open task goes, and the cascade runs from the deleted id |
| `LinkMeaning.DoomedBecause` | src/krewhub/routes/links.py:371-390 | a task a cascade cancels was open, claimed or working, and an active link leads to it from the root or another cancelled task whose kind is drives, or subagent with that source as its creator |
| `LinkMeaning.DoomedBy` | src/krewhub/routes/links.py:371-390 | every such link out of the root or a cancelled task, to an open, claimed or working task, cancels its target |
| `LinkMeaning.DoomedLeast` | src/krewhub/routes/links.py:371-390 | nobody else is cancelled: any set of tasks those links do not leave contains them all |
| `LinkMeaning.CascadeMeans` | src/krewhub/routes/links.py:360-402 | the tables after a cascade, statuses and links spelled out: exactly the doomed tasks become cancelled, exactly the active links at the root or a doomed task become revoked, nothing else of a task but its dependencies changes |
| `LinkMeaning.SurvivorWaits` | src/krewhub/routes/links.py:391-402 | a surviving task stops waiting for a task exactly when that is the root or a cancelled task with an active pipe to it |
| `LinkMeaning.DiesWithSource` | src/krewhub/routes/links.py:205-240 | after an accepted create, cancelling the source cancels a child spawned over drives or subagent and an existing open, claimed or working target of drives; a pipe, or a subagent link to an existing task, adds nobody to those that die |
| `LinkMeaning.AcceptedExactlyWhen` | src/krewhub/routes/links.py:122-203 | a create request is accepted exactly when its kind and payload map are valid, it names one of a target and a new task, the caller owns the bundle of an existing source, and a named target exists in that bundle, is another task, has no active link of that kind from the source, and closes no loop in either graph |
| `LinkMeaning.RefusedExactlyWhen` | src/krewhub/routes/links.py:122-187 | each refusal of a create request but the cycle guard's, in terms of the request and the tables, and which one wins if several apply |
| `LinkMeaning.GuardsWalk` | src/krewhub/routes/links.py:64-112 | the two graphs the guards walk: every dependency of a task of the bundle, and every active link of the bundle whatever its kind |
| `LinkMeaning.CreatedWaits` | src/krewhub/routes/links.py:149-240 | the tables after an accepted create: one link, at most one new open and unclaimed task, and the target waits for the source exactly over a pipe; nothing else changes |
| `LinkMeaning.RevokeDrops` | src/krewhub/routes/links.py:290-317 | a revocation takes away a dependency exactly when it is the link's target's on its source and the link was the last active pipe between the two |
| `Cascade.CompleteIsCascaded` | src/krewhub/routes/links.py:360-402 | whatever order the rows came in, the final tables are the closed form: cancelled = reachable from the root, revoked = touching one of them, dependencies of survivors lose exactly their dead pipe upstreams |
| `Cascade.FrameResult` | src/krewhub/routes/links.py:346-413 | the summary of a finished cascade agrees with the tables: distinct cancellations, equal to the doomed set, and the bounds on `links_revoked` |
| `CascadeOrder.CountExactWhen` | src/krewhub/routes/links.py:354-413 | `links_revoked` is the number of links revoked, in whatever order the rows come, exactly when no task the cascade passes has a driving link behind which the cascade also finds the other end of another active link out of that task |
| `CascadeOrder.BypassCounts` | src/krewhub/routes/links.py:354-364 | for every such second way there is an order of the rows in which the count is larger than the number of links revoked |
| `CascadeOrder.CallersCount` | src/krewhub/routes/tasks.py:680-709 | the same exact condition for the count that a cancel and a delete request report, in every state that a run of requests reaches |
| `CascadeOrder.DiamondCountsFour` | src/krewhub/routes/links.py:354-364 | a concrete case: task 0 drives 1 and 2, 1 drives 2; in one order of the rows the cascade reports four revocations for three links |
| `LinkRuns.CreateKeepsLinks` | src/krewhub/routes/links.py:180-203 | an accepted create keeps the links of every bundle acyclic, inside their bundle, and one per (from, to, kind) |
| `LinkRuns.CreateKeepsDeps` | src/krewhub/routes/links.py:195-218 | an accepted create keeps every bundle's dependencies acyclic and every active pipe backed by a dependency |
| `LinkRuns.RevokeKeeps` | src/krewhub/routes/links.py:290-317 | a revocation keeps both families of invariants |
| `LinkRuns.CascadeKeepsLinks` | src/krewhub/routes/links.py:354-413 | a cascade keeps the link invariants even when its root row has just been deleted |
| `LinkRuns.CascadeKeepsDeps` | src/krewhub/routes/links.py:391-402 | a cascade keeps dependencies acyclic and surviving pipes backed |
| `LinkRuns.CascadeFreesDownstream` | src/krewhub/routes/links.py:391-402 | after a cascade no surviving task waits for the root or a cancelled task through a pipe that was active at the start, and it still waits for everything else it waited for |
| `LinkRuns.AddTaskKeepsDeps` | src/krewhub/services/task_service.py:336-360 | a new task may depend on anything but itself without closing a dependency loop |
| `LinkRuns.LinksSafe` | src/krewhub/routes/links.py:115-413 | over every run of create, revoke, cancel, remove, add, work and edit requests the active links stay acyclic per bundle, within bundles, and unique per (from, to, kind) |
| `LinkRuns.DepsSafe` | src/krewhub/routes/links.py:64-413 | over every such run without `edit_task` dependencies stay acyclic per bundle and every active pipe A to B has A among B's dependencies |
| `LinkRuns.EmptyStart` | src/krewhub/routes/links.py:223-234 | tables without active links, and without dependencies, satisfy the invariants the runs keep |
| `LinkRuns.CreateThenRevoke` | src/krewhub/routes/links.py:205-317 | creating a pipe and revoking it restores every task row exactly when the downstream task did not depend on the upstream one before |
| `LinkRuns.MixedCycleAccepted` | src/krewhub/routes/links.py:189-203 | the two guards look at the two graphs apart: a concrete accepted link closes a loop that alternates between links and dependencies |
| `LinkRuns.AcceptedKeepsFlow` | src/krewhub/routes/links.py:189-218 | an accepted link keeps links and dependencies together acyclic exactly when its target does not reach its source over both graphs taken together; a spawned task never closes a loop |
| `LinkRuns.NextKeepsFlow` | src/krewhub/routes/links.py:115-413 | apart from `edit_task`, the only request that makes the two graphs cyclic together is such a create |
| `LinkRuns.FlowSafe` | src/krewhub/routes/links.py:64-413 | over every run without `edit_task` and without such a create, links and dependencies together stay acyclic per bundle |
| `Graphs.AcyclicAddEdge` | src/krewhub/routes/links.py:189-203 | an edge keeps an acyclic graph acyclic exactly when its target does not reach its source |
| `CycleCheck.EdgesHaveCycle` | src/krewhub/services/graph_attachment_service.py:56-91 | the three-colour search ends and answers true exactly when the edges contain a cycle, self-loops and nodes named only in edges included |
| `CycleCheck.Visit` | src/krewhub/services/graph_attachment_service.py:72-90 | the search from one white root either finds a cycle or finishes everything below the root, leaving the order of finished nodes a witness of acyclicity |
| `CycleCheck.Iterate` | src/krewhub/services/graph_attachment_service.py:80-87 | the inner loop over the top iterator: a grey neighbour is a real cycle, a white one is entered, otherwise the iterator is at its end |
| `CycleCheck.BuildAdjacency` | src/krewhub/services/graph_attachment_service.py:66-69 | the dictionary holds exactly the edges, and every node an edge names is a key |
| `Attachment.IncomingEdges` | src/krewhub/services/graph_attachment_service.py:170-173 | each step's list holds exactly the sources of its incoming edges, each once |
| `Attachment.AttachmentService.Attach` | src/krewhub/services/graph_attachment_service.py:132-211 | each refusal has its exact condition and changes nothing; on success the new rows are one open task per step whose dependencies mirror its incoming edges, and other rows are untouched |
| `Attachment.AttachmentService.CreateTasks` | src/krewhub/services/graph_attachment_service.py:176-190 | the first loop creates one task per step in step order, with the id map it needs next |
| `Attachment.AttachmentService.SetDependencies` | src/krewhub/services/graph_attachment_service.py:192-205 | the second loop turns edges into dependencies without touching any other row, and keeps the returned list equal to the rows |
| `Attachment.AttachedAcyclic` | src/krewhub/services/graph_attachment_service.py:161-205 | the dependencies of an accepted graph are acyclic |
| `Attachment.SomeoneReady` | src/krewhub/services/graph_attachment_service.py:161-205 | at every point of every schedule, while a created task is not done some created task is open with all dependencies done |
| `Attachment.EveryScheduleFinishes` | src/krewhub/services/task_service.py:85-97 | any order of gate-passing completions runs each task once and after its upstream steps, and cannot be continued exactly when every created task is done |
| `Claims.TaskService.ClaimTask` | src/krewhub/services/task_service.py:74-121 | each answer has its exact condition: a claim is won exactly for an open task past its dependency gate by an agent that holds nothing in the bundle's cookbook, and only that row changes |
| `Claims.WonMeans` | src/krewhub/services/task_service.py:81-100 | a claim is won exactly for an open task whose dependencies all exist and are done, by an agent with no claimed or working task in the bundle's cookbook |
| `Claims.ClaimKeepsOneEach` | src/krewhub/services/task_service.py:81-100 | claims keep every agent at one claimed or working task per cookbook |
| `Claims.ClaimKeepsGated` | src/krewhub/services/task_service.py:85-100 | claims keep every claimed or working task past its dependency gate |
| `Dispatch.TaskDispatcher.DispatchForCookbook` | src/krewhub/controllers/task_dispatch.py:98-169 | every dispatched task was open, unassigned, outside the graph runner and had all dependencies DONE; it went to the first gateway in the list that accepts and had room at that moment; loads grow by exactly the dispatches and no dispatch takes a gateway past its limit; a ready task left behind was refused by every gateway with room |
| `Dispatch.PassMeans` | src/krewhub/controllers/task_dispatch.py:127-169 | what a pass leaves of each row: a dispatched task was open, unassigned and outside graphs with all dependencies done, its gateway is listed and accepted it, and it is now claimed by and assigned to that gateway; every other row is as it was |
| `Dispatch.TaskDispatcher.DispatchRow` | src/krewhub/controllers/task_dispatch.py:131-169 | the body of the task loop keeps the pass's properties and the meaning of the capacity dictionary |
| `Dispatch.TaskDispatcher.Capacity` | src/krewhub/controllers/task_dispatch.py:109-117 | the dictionary holds exactly the gateways with room and how much they have left |
| `Dispatch.TaskDispatcher.TryDispatch` | src/krewhub/controllers/task_dispatch.py:171-187 | the first gateway in list order that has room and accepts, or none |
| `Dispatch.TaskDispatcher.DepsSatisfied` | src/krewhub/controllers/task_dispatch.py:252-258 | true exactly when every dependency exists and is DONE |
| `Dispatch.TaskDispatcher.ListUnassigned` | src/krewhub/repositories/task_repo.py:62-78 | the open, unassigned tasks of the cookbook that belong to no graph, each once |
| `Dispatch.RoomAfterSend` | src/krewhub/controllers/task_dispatch.py:167-169 | decrementing and deleting keeps the dictionary equal to what the gateways have left |
| `Dispatch.LoadAfterSend` | src/krewhub/repositories/task_repo.py:80-124 | a dispatch adds one to the active-plus-pending load of its gateway and nothing to any other |
| `Dispatch.LoadCounts` | src/krewhub/repositories/task_repo.py:80-124 | the load of a gateway is the number of the cookbook's tasks it has claimed or works on, or that are open, unclaimed and assigned to it |
| `Dispatch.AllAccepted` | src/krewhub/controllers/task_dispatch.py:127-169 | if every gateway accepts, either exactly the ready tasks were dispatched or every gateway is full |
| `AgentPicker.Pick` | src/krewhub/services/graph_runtime/agent_picker.py:47-69 | none exactly when nobody is eligible; otherwise an eligible agent no other eligible agent ranks before |
| `AgentPicker.PickPrefers` | src/krewhub/services/graph_runtime/agent_picker.py:48-69 | whoever is online or busy with an endpoint and not excluded, someone such is chosen, and against each of them the choice has the skill if they have it, then is online if they are, then has the smaller id |
| `AgentPicker.PickIgnoresOrder` | src/krewhub/services/graph_runtime/agent_picker.py:58-69 | with unique ids the choice does not depend on the order of the list |
| `AgentPicker.PickDiverse` | src/krewhub/services/graph_runtime/cycle.py:387-410 | an agent is reused within the cycle only when every eligible agent has been tried, and within the bundle only when every fresh one has been used |
| `AgentPicker.DiverseTiers` | src/krewhub/services/graph_runtime/cycle.py:402-410 | the choice is the best of those fresh in cycle and bundle if there is one eligible, else of those fresh in the cycle, else of all |
| `AgentPicker.PickDiverseIgnoresOrder` | src/krewhub/services/graph_runtime/cycle.py:387-410 | the three-tier choice does not depend on the order of the list either |
| `Polling.WaitForTaskTerminal` | src/krewhub/services/graph_runtime/polling.py:45-77 | returns the first terminal row read, reports a vanished row, and expires exactly when the row was running at every read |
| `Polling.WaitForDependencies` | src/krewhub/services/graph_runtime/polling.py:80-141 | satisfied exactly when every dependency reaches the accepted status before it is seen failed or gone; a reported failure is a real one; a timeout means one was open throughout and none failed |
| `Polling.PollOnce` | src/krewhub/services/graph_runtime/polling.py:121-135 | one round: the first dependency in the list that is gone or has ended otherwise, or else exactly those still open |
| `DispatchCycle.OrchestratorState.DispatchCycle` | src/krewhub/services/graph_runtime/cycle.py:49-379 | over the history of everything the call asked of the outside: at most `max_iterations` dispatches, and fewer on giving up only after a minute with nobody eligible; every dispatch comes after all dependencies of the first row read were met, after the run of another owner was waited for, and with no accepted dispatch still unfinished, and goes where the diversity rule says for the last list read; an exception leaves it exactly when the row was gone at the end of a wait, a failure once something was dispatched is `exhausted`, and the other failures each have their one cause; `done` is returned exactly when the last status seen is the accepted one and exactly when the record says success; the attempts added are exactly one per ended wait and rejected dispatch, with the iteration, agent and status that came of it, and then those of the failure; only this node's record changes |
| `DispatchCycle.OrchestratorState.Guards` | src/krewhub/services/graph_runtime/cycle.py:88-237 | the early exits: what was asked, recorded and answered before the loop is a run of the protocol; without an exit every dependency on the first row read has been met; nothing is dispatched |
| `DispatchCycle.OrchestratorState.FanIn` | src/krewhub/services/graph_runtime/cycle.py:113-165 | waits for all dependencies and reads the row again; goes on only if every one was met and the row last read is not yet accepted |
| `DispatchCycle.OrchestratorState.InFlight` | src/krewhub/services/graph_runtime/cycle.py:177-237 | a run started by someone else is waited for in the history, recorded as attempt 0 with its owner, and adopted exactly when it ends accepted |
| `DispatchCycle.OrchestratorState.RetryLoop` | src/krewhub/services/graph_runtime/cycle.py:244-379 | the loop from its first iteration to its answer is a run of the protocol, and leaves its record and the set of agents used |
| `DispatchCycle.OrchestratorState.TryOnce` | src/krewhub/services/graph_runtime/cycle.py:247-372 | one iteration takes the protocol from iteration k to k + 1, to success, to an exception, or to giving up, with exactly the attempt recorded that the history calls for; that the protocol goes on after a run that ended otherwise is `CycleHistory.PlayRaises` with `PlayReasons` and `PlayGivesUp`, and what it records `CycleHistory.PlayRecords` |
| `DispatchCycle.OrchestratorState.RecordFailure` | src/krewhub/services/graph_runtime/cycle.py:556-588 | clears success and appends an attempt exactly for a positive iteration |
| `CycleHistory.EveryDispatch` | src/krewhub/services/graph_runtime/cycle.py:88-303 | in every history, at every dispatch: the dependencies of the first row are met, another owner's run has been waited for, no accepted dispatch is unfinished, fewer than `max_iterations` dispatches came before, and the agent is the diversity rule's choice |
| `CycleHistory.DispatchIsDiverse` | src/krewhub/services/graph_runtime/cycle.py:387-410 | in a whole call an agent gets a second dispatch only if every agent eligible at that moment had one already, and every dispatch is to an eligible agent |
| `CycleHistory.PlayAnswers` | src/krewhub/services/graph_runtime/cycle.py:88-379 | in every history that ended without an exception the answer is `done` exactly when the last status seen is the accepted one, and the record's success flag says the same |
| `CycleHistory.PlayTells` | src/krewhub/services/graph_runtime/cycle.py:177-379 | in every such history the attempts are in iteration order, name the agents dispatched to in order, and have a number 0, under its owner's name, exactly when another owner's run was waited for |
| `CycleHistory.PlayGivesUp` | src/krewhub/services/graph_runtime/cycle.py:247-303 | a call that answers `exhausted` made `max_iterations` dispatches, or has slept at least a minute since the last one without any list showing an eligible agent |
| `CycleHistory.PlayRaises` | src/krewhub/services/graph_runtime/cycle.py:177-341 | in every history an exception leaves the call exactly when the task's row was gone at the end of a wait; a run that ended in any other way is never a reason to stop |
| `CycleHistory.PlayReasons` | src/krewhub/services/graph_runtime/cycle.py:88-379 | each other answer has its cause: a missing map entry, a missing row and failed dependencies each exactly when they happened; a call that dispatched anything ends in `done`, an exception or `exhausted` |
| `CycleHistory.PlayRecords` | src/krewhub/services/graph_runtime/cycle.py:177-379 | the attempts a call records are exactly one per ended wait and rejected dispatch, in order, with iteration, agent and the status spelled out, followed by those of giving up |
| `CycleHistory.PlayNaps` | src/krewhub/services/graph_runtime/cycle.py:259-277 | between two dispatches a call sleeps less than a minute and one poll interval |
| `CycleHistory.PlayOwner` | src/krewhub/services/graph_runtime/cycle.py:179-187 | another owner's run is waited for only when the last row read was claimed or working |
| `EventStream.StreamIsPrefix` | src/krewhub/routes/invocations.py:380-411 | without `after`, in every interleaving and even after an overflow, the emitted events are a prefix of the tape numbered 0, 1, 2, ... that never passes the first `done` |
| `EventStream.CaughtUp` | src/krewhub/routes/invocations.py:380-411 | a reader still subscribed in its live loop with an empty queue has emitted every event announced so far; that it gets there is `EventStream.CatchesUp` |
| `EventStream.ClosesOnlyBy` | src/krewhub/routes/invocations.py:384-413 | in every run in which the client neither leaves nor times out, the stream ends only with a `done` as its last event |
| `EventStream.LosesPlace` | src/krewhub/watch/service.py:141-177 | a reader loses its place only by leaving, by having sent `done`, or by an event announced while 256 are waiting |
| `EventStream.CatchesUp` | src/krewhub/routes/invocations.py:387-409 | in every state of every run, a subscribed reader left to itself goes through its backlog and its queue and ends in the live loop with everything announced sent, from event 0 on without `after`, from behind `after` if its backlog had anything, else from where it joined; or it ends with `done` |
| `EventStream.BacklogMeans` | src/krewhub/routes/invocations.py:387 | the backlog is the end of the tape: exactly its events behind `after`, all of them without `after` |
| `EventStream.StreamIsUnbroken` | src/krewhub/routes/invocations.py:380-411 | with `after` too the stream is one unbroken piece of the tape |
| `EventStream.AfterRespected` | src/krewhub/routes/invocations.py:387-407 | in every state of every run of a reader with `after`: whatever follows, only events after `after` are sent, exactly when that holds so far and the reader is not at risk; at risk is a reader that has found no backlog, or may still find none, joined or would join before `after` is announced, and can still be handed an event |
| `EventStream.WhoIsServed` | src/krewhub/routes/invocations.py:387-407 | in every run, all events sent come after `after` exactly when none was sent, a backlog was found, or `after` had been announced before the reader subscribed |
| `EventStream.AfterReplayed` | src/krewhub/routes/invocations.py:387-407 | a concrete run in which a client asking for what follows event a is sent event 0, because the cursor starts at -1 |
| `EventStream.InvStep` | src/krewhub/watch/service.py:166-177 | every step of writers, notifier and reader keeps the queue, the cursor and the emitted events in step |
| `ConnectDecoder.DecodeConnectStream` | src/krewhub/services/e2b_client.py:348-421 | the output is the meaning of the frames in the concatenated bytes, so it does not depend on how they were split |
| `ConnectDecoder.UnpackPacked` | src/krewhub/services/e2b_client.py:371-378 | unframing inverts framing for all bodies below 2^32, whatever bytes follow |
| `ConnectDecoder.PackUnpacked` | src/krewhub/services/e2b_client.py:371-378 | framing inverts unframing: no byte is lost or invented, and what remains is no whole frame |
| `ConnectDecoder.ExitReported` | src/krewhub/services/e2b_client.py:383-416 | a stream that ended carries an exit code, and while reading the flag tells whether one was emitted |
| `ConnectDecoder.EndsAtFirstEnd` | src/krewhub/services/e2b_client.py:379-393 | decoding stops at the first end-of-stream frame whose body parses; later frames leave no trace |
| `ConnectDecoder.StillReading` | src/krewhub/services/e2b_client.py:379-393 | decoding goes on exactly while no frame was a parsed end and no body broke the decoder |
| `ConnectDecoder.DeliversSent` | src/krewhub/services/e2b_client.py:379-421 | the chunks of a command, one frame each and closed by an end-of-stream frame, arrive unchanged and in order, with an exit code added only if none was sent |
| `ConnectDecoder.ReadsPieces` | src/krewhub/services/e2b_client.py:394-421 | frames before the end yield exactly their chunks: stdout before stderr, data before an end, an exit code as it was sent, nothing for what does not parse |
| `ConnectDecoder.StopsWith` | src/krewhub/services/e2b_client.py:379-393 | the end-of-stream frame adds its error if it carries one, then exit code 0 if none was sent, and whatever follows is ignored; a frame that breaks the decoder ends it with what came before |
| `ConnectDecoder.PackMeans` | src/krewhub/services/e2b_client.py:371-378 | a frame is one flag byte, the length in four bytes from the highest, and the body |
| `ConnectDecoder.EndFlag` | src/krewhub/services/e2b_client.py:383 | a frame ends the stream exactly when bit 1 of its flag byte is set, whatever the other bits are |
| `ConnectDecoder.Envelope` | src/krewhub/services/e2b_client.py:309-310 | the request envelope exists exactly for bodies below 2^32 bytes and unframes to the one body |
| `Lease.RelayDesk.Emit` | src/krewhub/repositories/elicit_repo.py:31-41 | emitting an elicit starts its protocol in `pending`; emitting a known id again changes nothing for any elicit |
| `Lease.RelayDesk.Arrive` | src/krewhub/routes/credential_relay.py:127-133 | a request reserves exactly when it names a pending elicit of its invocation; that elicit takes the protocol's step for an arriving relay, and no other elicit moves |
| `Lease.RelayDesk.Conclude` | src/krewhub/routes/credential_relay.py:158-170 | finalizing takes the protocol's step of that relay, resolving the elicit unless its lease was lost, and moves no other elicit |
| `Lease.RelayDesk.Sweep` | src/krewhub/repositories/elicit_repo.py:99-109 | every elicit takes the protocol's sweep step, and the count is the number of lapsed leases |
| `Lease.MutualExclusion` | src/krewhub/routes/credential_relay.py:127-170 | no two relays ever inject for one elicit at once, under any interleaving with sweeper and clock, exactly when delay plus timeout is at most the lease |
| `Lease.TableExclusive` | src/krewhub/routes/credential_relay.py:127-170 | whatever the requests on the whole table, no elicit is ever injected by two relays at once, when delay plus timeout is at most the lease |
| `Lease.OverlapRuns` | src/krewhub/config.py:100-106 | with a shorter lease, a run in which two relays inject at once |
| `Lease.ResolvedOnce` | src/krewhub/repositories/elicit_repo.py:83-97 | whatever the timing, at most one finalize succeeds and `resolved` is never left; that a successful relay does resolve its elicit is `Lease.SuccessResolves` |
| `Lease.SuccessResolves` | src/krewhub/routes/credential_relay.py:127-170 | a relay that has reserved, injects successfully and finalizes leaves the elicit resolved, whatever other relays, the clock and the sweeper do in between, unless the sweeper takes a lapsed lease |
| `Lease.SuccessCounts` | src/krewhub/routes/credential_relay.py:153-170 | undisturbed it is that relay's own finalize that succeeds |
| `Lease.ResolvedBy` | src/krewhub/routes/credential_relay.py:158-170 | over every run an elicit is resolved only if some relay started, succeeded and finalized |
| `Lease.LapsedRecovers` | src/krewhub/repositories/elicit_repo.py:99-109 | a lapsed lease is reservable again after one sweep |
| `WatchLog.WatchLogStore.Append` | src/krewhub/watch/store.py:23-59 | the new row gets the next key and is appended |
| `WatchLog.WatchLogStore.ListSince` | src/krewhub/watch/store.py:61-86 | the matching rows after `since` in key order, cut at the limit; a negative limit cuts nothing |
| `WatchLog.WatchLogStore.LatestSeq` | src/krewhub/watch/store.py:88-95 | the largest key, 0 for an empty log |
| `WatchLog.SelectMember` | src/krewhub/watch/store.py:70-82 | a row is selected exactly when it is in the log, after `since`, and matches |
| `WatchLog.SelectAscending` | src/krewhub/watch/store.py:80-86 | a page is in key order without duplicates |
| `WatchLog.SessionSplits` | src/krewhub/watch/store.py:61-86 | at every point of a paging session over a growing log, what was read followed by what follows the cursor is the whole selection |
| `WatchLog.PagingComplete` | src/krewhub/watch/store.py:61-86 | paging until an empty page returns every matching row in order and once exactly when the limit is not zero or there is nothing to return |
| `WatchLog.PageAdvances` | src/krewhub/watch/store.py:61-86 | a page that is not empty moves the cursor forward by what it returned; a page is empty exactly for limit zero or nothing left |
| `WatchLog.PageMeans` | src/krewhub/watch/store.py:61-86 | a page is the front of the selection: all of it for a negative limit or one not reached, else as much as the limit says |
| `WatchLog.PassesMeans` | src/krewhub/watch/store.py:71-76 | a row matches exactly when it has the asked type and cookbook, each if given |
| `Watch.WatchService.Record` | src/krewhub/watch/service.py:32-52 | one append followed by one notification of the same event |
| `Watch.WatchService.NotifyEphemeral` | src/krewhub/watch/service.py:76-116 | a notification carrying the newest key, with the log unchanged |
| `Watch.WatchService.Subscribe` | src/krewhub/watch/service.py:141-147 | a new empty queue, listed last |
| `Watch.WatchService.Unsubscribe` | src/krewhub/watch/service.py:149-150 | exactly the subscriber of that queue leaves; its queue stays as it is |
| `Watch.WatchService.Notify` | src/krewhub/watch/service.py:166-177 | every listed queue with a matching filter and room gets the event, every matching full one loses its place, at most 256 events are ever pending |
| `Watch.NotifiedAt` | src/krewhub/watch/service.py:166-177 | seen from one queue: a matching event at its end if there is room, otherwise nothing and the place is lost; unlisted or unmatched queues are left alone |
| `Watch.MatchesMeans` | src/krewhub/watch/service.py:188-207 | a subscriber matches exactly the events of its one type, of its types and of its cookbook, each if given, whose channel is one of its patterns or begins with the stem of one that ends in a star |
| `WatchRuns.ExactDelivery` | src/krewhub/watch/service.py:141-177 | over every run the events ever queued for a subscription are exactly the matching events notified since, in order, up to its first overflow or unsubscription |
| `WatchOrder.QueuedInOrder` | src/krewhub/watch/service.py:76-116 | when notifications are made in the order of the events, the keys put on any queue never decrease, heartbeats included |
| `WatchOrder.ReconnectMissesNothing` | src/krewhub/watch/service.py:15-24 | when events are notified in the order they were made, every matching entry made since the subscription is on exactly one side: taken from the queue, or in the log after the last key taken, even if the queue had overflown |
| `Reconnect.LosslessExactly` | src/krewhub/watch/service.py:42-51 | for every run and subscription: whenever the subscriber stops reading its queue and reconnects it loses no matching entry, exactly when no notification ever put an event on its queue while a matching entry with no larger key was still in flight |
| `Reconnect.Overtaken` | src/krewhub/watch/service.py:42-51 | without that order the promise fails: a concrete run in which the later of two entries is notified and taken first, and whoever reconnects then never sees the earlier one |
| `Orchestration.OrchController.ReconcileTask` | src/krewhub/controllers/orch_controller.py:140-156 | the row changes by exactly one decided move: accept, defer, flag, respawn, park or nothing |
| `Orchestration.OrchController.HandleDone` | src/krewhub/controllers/orch_controller.py:160-220 | a valid Report is accepted, or left to the brain if one is attached; anything else is flagged once |
| `Orchestration.OrchController.CheckLiveness` | src/krewhub/controllers/orch_controller.py:226-304 | a task whose runtime is lost is reopened below the cap and parked at it; a task without a runtime is left alone |
| `Orchestration.OrchController.Reconcile` | src/krewhub/controllers/orch_controller.py:125-133 | a pass over the listed tasks makes every row's one move, and those off the list have none to make |
| `Orchestration.CheckedMeans` | src/krewhub/controllers/orch_controller.py:140-304 | the decided move field by field: who becomes accepted, deferred, flagged, respawned, halted, reopened or parked, each exactly when |
| `Orchestration.Budget` | src/krewhub/controllers/orch_controller.py:253-281 | what a task can still cost shrinks with every write and is not raised by anybody else |
| `Orchestration.BoundedWork` | src/krewhub/controllers/orch_controller.py:140-281 | over every run the reconciles seen to reopen a task are at most `max_respawns`, and those seen to change its bookkeeping at most `max_respawns + 2` |
| `Orchestration.BoundMet` | src/krewhub/controllers/orch_controller.py:140-281 | the bound is met: a run with exactly `max_respawns + 2` writes |
| `Orchestration.ChecksConverge` | src/krewhub/controllers/orch_controller.py:140-156 | while nobody else changes the row, any number of reconciles does what one does |
| `Orchestration.SettledForGood` | src/krewhub/controllers/orch_controller.py:145-147 | once accepted, halted or awaiting the brain, a task is never written again |
| `LinkFiring.LinkReconciler.MaybeFirePipe` | src/krewhub/controllers/link_reconciler.py:118-184 | a pipe waits for a done and, if Brief-managed, accepted source; then it delivers to the description or the Brief, or is only marked when nobody can receive |
| `LinkFiring.LinkReconciler.MaybeFlowReport` | src/krewhub/controllers/link_reconciler.py:190-261 | the report of a done and vetted child lands on its parent's tape, or the link is only marked when the child or parent is gone |
| `LinkFiring.LinkReconciler.Reconcile` | src/krewhub/controllers/link_reconciler.py:57-76 | a pass takes every selected link through one step, in whatever order, and touches no other link |
| `LinkFiring.PassSteps` | src/krewhub/controllers/link_reconciler.py:57-76 | a pass takes the selected links in turn, each through its one step from the state the one before left |
| `LinkFiring.PipeDelivers` | src/krewhub/controllers/link_reconciler.py:118-184 | a pipe whose source is done, and accepted if Brief-managed, and whose target is neither done nor cancelled delivers the source's report or last reply once to the Brief's context or the description, and is fired |
| `LinkFiring.ReportDelivers` | src/krewhub/controllers/link_reconciler.py:190-261 | a done child, accepted if Brief-managed, whose parent is not cancelled delivers its report or last reply to the parent's tape, and the link is fired |
| `LinkFiring.NothingDelivered` | src/krewhub/controllers/link_reconciler.py:118-261 | in every other case nothing is delivered, and the link waits or is only marked, each exactly when |
| `LinkFiring.DeliversOnce` | src/krewhub/controllers/link_reconciler.py:267-272 | over every run no link delivers twice, and a link that delivered is fired |
| `LinkFiring.SendsOnlyVetted` | src/krewhub/controllers/link_reconciler.py:118-166 | a payload leaves only a done task, and a Brief-managed one only after the orchestrator accepted it earlier in the run, when it was done with a valid Report and no brain attached |
| `LinkFiring.SentByFire` | src/krewhub/controllers/link_reconciler.py:134-165 | every delivery was made by one step, with the source, target and rendered content of that moment |
| `LinkFiring.AcceptedOnlyByCheck` | src/krewhub/controllers/orch_controller.py:196-198 | an accepted task was accepted by the orchestrator at some earlier step |
| `Schema.AcceptedExactlyWhen` | src/krewhub/models/invocation.py:276-343 | a schema is accepted exactly when it is a flat object of primitives, constant choices and lists of either |
| `Schema.NeverUnsupported` | src/krewhub/models/invocation.py:276-441 | an accepted schema never meets a type the content check does not know |
| `Schema.ContentConforms` | src/krewhub/models/invocation.py:346-441 | for an accepted schema the step-by-step check passes exactly the content that has every required name and suits every known property |
| `Schema.CrashesExactlyWhen` | src/krewhub/models/invocation.py:346-441 | some content without repeated keys makes the check raise something other than ValueError exactly when `required`, an enum, or the oneOf of array items has a shape the schema check does not look at |
| `Schema.ValueSuits` | src/krewhub/models/invocation.py:376-441 | a single value passes exactly when it suits its property |
| `Schema.RequiredKnown` | src/krewhub/models/invocation.py:360-364 | the required loop passes exactly when every entry is a name the content has |
| `Invocations.OneEnding` | src/krewhub/services/invocation_service.py:396-467 | over every run: at most one `done`; a terminal row has exactly one, with the stored result as envelope and the status its action gives; a finished run handed that same result to the parent exactly once; accepted content passes the schema; where the result comes from is `InvocationRuns.ResultComesFrom` |
| `Invocations.TerminalForGood` | src/krewhub/repositories/invocation_repo.py:76-92 | a terminal status and its result never change |
| `Invocations.SubmissionDecides` | src/krewhub/services/invocation_service.py:385-394 | the first submission delivered while the Hand runs decides the result, against the Hand's own return, the deadline and a cancel |
| `Invocations.JudgedLawful` | src/krewhub/services/invocation_service.py:396-417 | a judged result that is accepted under a schema has no content or content that passes; what content that fails becomes is part of `InvocationRuns.ResultComesFrom` |
| `Invocations.DiesExactlyWhen` | src/krewhub/services/invocation_service.py:396-419 | for an accepted schema a run, all of whose contents are dicts without repeated keys, can lose its runner without a `done` exactly when the schema can crash the content check |
| `Invocations.DeadForGood` | src/krewhub/services/invocation_service.py:328-419 | such a run stays in `running` for ever, without a result or a `done` |
| `InvocationRuns.ResultComesFrom` | src/krewhub/services/invocation_service.py:352-425 | every stored result was decided at one step of the run: by the first submission delivered, else by the Hand's return, the deadline, an interrupt or a crash, each with its envelope spelled out; an accept whose content is text or does not fit the schema is stored as an error, every other envelope as it is |
| `InvocationRuns.AcceptsWereOffered` | src/krewhub/services/invocation_service.py:370-425 | a stored accept or decline is an envelope the Hand returned, or one submitted while the invocation was running |
| `InvocationRuns.DeliveredInTime` | src/krewhub/services/invocation_service.py:258-288 | only submissions made while the row is running and its runner there are delivered |
| `InvocationRuns.DecisionsTold` | src/krewhub/services/invocation_service.py:274-285 | the decisions on a human invocation's tape are exactly the submissions delivered, in order; on other tapes there are none |
| `InvocationRuns.SubmissionArrives` | src/krewhub/services/invocation_service.py:258-308 | a submission to a running invocation reaches its runner and is kept if it is the first, a cancel likewise; on any other both change nothing |
| `InvocationRuns.RunnerJudges` | src/krewhub/services/invocation_service.py:352-425 | whatever others do, an invocation without a Hand ends in an error, and with one the result is decided and judged when the Hand ends, unless the content check breaks on it |
| `InvocationRuns.RunnerFinishes` | src/krewhub/services/invocation_service.py:429-467 | a judged runner writes one `done`, stores the result with the status its action gives and hands it to the parent once, whatever others do in between |
| `TailBuffer.TailText.Append` | src/krewhub/workers/sandbox_hand.py:796-806 | for a positive limit, after every append at most four times the limit is kept, and always enough to show the end |
| `TailBuffer.TailText.Value` | src/krewhub/workers/sandbox_hand.py:808-812 | the last N bytes of everything appended exactly when N is positive or nothing was appended; with N = 0 it is everything |
| `TailBuffer.KeepsEnd` | src/krewhub/workers/sandbox_hand.py:802-812 | cutting early loses nothing of the last N bytes |

## Left out

- Links.LinkService.CascadeOnTermination: is stated for a root that is already cancelled or deleted, as both callers in `routes/tasks.py` make it; with a cancellable root a link cycle could lead back to it.
- Cascade.CompleteIsCascaded: says of a dying task only that it lost some of its dead pipe upstreams, because which ones depends on the order of the recursion.
- Cascade.FrameResult: bounds `links_revoked` for every order of the rows; its value for a given order is `CascadeOrder.FrameRun`.
- LinkRuns.DepsSafe: excludes `edit_task`, which writes dependencies without a guard.
- Dispatch.TaskDispatcher.DispatchForCookbook: takes the answers of the gateways as a function of gateway and task, fixed for the pass.
- DispatchCycle.OrchestratorState.DispatchCycle: does not model prompts, summaries, upstream context, fact collection, or the row writes of claiming and reopening; rows are read as arbitrary values, the poll interval is positive and counted in milliseconds, and a history begins with its call. That the bundle's set of agents grows by this call's dispatches alone holds when no sibling step of the bundle runs in between; siblings change the set, and with it later choices, at the awaits.
- Polling.WaitForDependencies: counts rounds of reads instead of time; empty ids in the dependency list are assumed filtered out.
- AgentPicker.Pick: capability names are tokens after lower-casing and agent ids are compared as numbers, which stands for any total order.
- EventStream.StreamIsPrefix: notifications of one tape are made in id order; the watch service alone does not force that, see `Reconnect.Overtaken`.
- ConnectDecoder.DecodeConnectStream: JSON, UTF-8 and base64 are one abstract parser of a frame, flags included; a frame that breaks it ends the stream there.
- WatchOrder.ReconnectMissesNothing: assumes the order that `WatchOrder.QueuedInOrder` does; without it only `Reconnect.LosslessExactly` is claimed.
- WatchOrder.QueuedInOrder: assumes notifications in the order of the events, which holds when an append and its notification are not interrupted.
- WatchLog.PagingComplete: trimming the log is not modelled; no service calls it.
- Orchestration.BoundedWork: one reconcile of one task is one step, and nobody else takes anything back in `orch_json`.
- LinkFiring.SendsOnlyVetted: nobody but the orchestrator writes an acceptance; the rendering of a report to text is not modelled.
- Invocations.OneEnding: steps between awaits are the model's steps, the failure of a database write is not; a submission can put its `decision` after the `done`, which nothing here excludes.
- Schema.ContentConforms: NaN is not modelled, and numbers are compared as reals.
- TailBuffer.TailText.Value: texts are of one-byte characters; a cut inside a longer character is replaced by the decoder and may make the text longer than the limit.
- Lease.RelayDesk.Arrive: the checks of task, bundle, provider and host before the reservation are not modelled; a request refused there changes nothing.
- Lease.MutualExclusion: the delay between the reservation and the start of the injection is a parameter; the program does not bound it.
- Ids are opaque numbers, and fresh ones are new to the tables; time stamps, payload text, titles, HTTP status codes and authorization are left out or reduced to a boolean.
- InvocationService and EventStream are state machines rather than classes, because their steps interleave at awaits; the relay is both.
- The `/watch` route replays at most 500 entries in one call, so nothing is claimed about it beyond `list_since`.
- The bundle service's own graph attachment, which has no cycle check, is not modelled.
- Sandbox reprovisioning, the tape cache, channel derivation, presence, billing, git, OAuth, wallet and proxy code are not modelled.
- Claims.ClaimKeepsOneEach: ranges over claims; the dispatcher may give an agent as many tasks as its limit allows. Session tokens are not modelled.
