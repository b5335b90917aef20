# EVARuntime: a Dafny model of the runtime's protocols

EVARuntime serves language models on GPU machines: a gateway starts and stops llama-server processes
within a VRAM budget, a node agent does the same on remote machines, and a bootstrap protocol lets an
operator try out a model before it is enabled for good. This project models the parts of it where
coroutines, processes and machines interleave, and the algorithms those parts rest on.

## How it is modelled

asyncio runs one coroutine at a time, so a step of a step system is the code between two points where
a coroutine really suspends; an `asyncio.Lock` that is free does not suspend. Time, the end of a load,
a dying process, the end of a kill, a measurement and the content of a file are events or parameters
that may take any value at any step. Bookkeeping objects are classes with the fields of the source;
each method is proved equal to the function the step systems use, so what is proved about runs is
proved about the methods.

| files | what they model |
|---|---|
| `ServerLifecycle` | one llama-server instance: load rounds and their events, load task, unload, idle and crash watchdog, pins |
| `GatewayPool`, `GatewaySystem` | the gateway's pool of managers, ports, VRAM, model locks and the ticket queue, then all its coroutines as a step system |
| `GatewayProofs`, `GatewayTheorems`, `GatewayAdmission`, `GatewayPins`, `GatewayBudget`, `GatewayOverrun`, `GatewayEviction` | the invariant of that system and what follows for every run |
| `GatewayGate`, `GatewayGateRun` | what a closed admission and the lock of a model keep out of the pool, and how `unload_model` leaves it |
| `GatewayDecisions`, `GatewayService`, `GatewayOrphans` | what becomes of a caller in every case, that undisturbed requests, evictions and unloads succeed, and when a port comes back under a process |
| `ProxyPins` | the pins that streamed and plain requests put on an instance |
| `NodeAgent`, `NodeSystem` | the node agent's tables and answers, then its load operations, unloads and tasks as a step system |
| `NodeProofs`, `NodeSteps`, `NodeTheorems`, `NodeAnswers`, `NodeAbandonedKill` | its invariant, what follows for every run, and what it answers in every case |
| `BootstrapLease` | bootstrap activation of one target model: lease, watchdog, gate, memory and disk registry |
| `GatewayLease` | that protocol and the gateway pool in one run: shared gate and registry, a rollback's unload as an operator of the pool |
| `Applier` | the bootstrap applier: proofs, provisional activations and their compensation |
| `RegistryEntries`, `RegistryDelta`, `RegistryPlan` | models.yaml: parsing and printing an entry, the minimal delta, the planned document, the registry object |
| `Attestation` | SHA-256 attestation of files: cache, shared flights, reading in chunks |
| `Migrations` | versioned migrations run by several processes |
| `PipeDrainer`, `NginxParser` | two text machines: the pipe drainer and the nginx reader |
| `Sums`, `Text` | sums over maps; white space |

`dafny verify dfyconfig.toml` verifies the project.

## What does not hold, and exactly when it does

* **Gateway budget.** `ensure_model_loaded` restarts an UNLOADED manager found in the pool without
  looking at the capacity. With a fixed registry, whoever is cancelled, the budget holds throughout a
  run if and only if every such restart fits into what the others leave
  (`GatewayBudget.BudgetIffRestartsFit`). Only cancelled callers leave such managers behind, so it
  holds in every run without cancellations (`GatewayBudget.BudgetHolds`).
  `GatewayOverrun.BudgetCanBeExceeded` is a run of thirteen steps that ends at twice the budget.
* **A load behind a closed gate.** The admission of a model is tested before the wait for the condition
  and not again for a manager that is registered. While the gate is closed a load starts if and only if
  a caller that had passed the test when the gate closed reaches an UNLOADED manager
  (`GatewayGate.NothingLoadsBehindGate`); `GatewayGateRun.LoadStartsBehindGate` is such a run. New
  managers stay away in any case, and nothing starts while `unload_model` holds the lock of the model.
* **Gateway ports.** `ensure_model_loaded` forgets the manager of a load that it gives up without
  unloading it. No port is ever free under an instance that may have a process, and no two such
  instances share one, if and only if no caller ever forgets a manager that is not UNLOADED
  (`GatewayOrphans.PortsCleanIff`). It happens when the admission of a model closes at the end of its
  load: `GatewayOrphans.PortFreedUnderReady` leads from any reachable state with room to a READY
  instance with a live process, in nobody's pool, on a free port.
* **Node-agent ports.** A deadline that falls into the kill started by the timeout of `ensure_loaded`
  abandons that kill; the clean-up then finds UNLOADING and releases the port at once.
  `NodeTheorems.PortsOutliveProcesses` holds for every other instance of every run,
  `NodeTheorems.AbandonedKillFreesPort` says exactly when the port comes back under a live process,
  and `NodeAbandonedKill.PortFreedUnderLiveProcess` is such a run. Everything else that is proved
  about the node agent holds in all runs, those included.
* **The bootstrap gate.** It never reopens on a model that is LOADING or READY, but it may reopen while
  a manager is still registered: if and only if the end of the drain in `unload_model` found the manager
  UNLOADING or UNLOADED already, and did not unload it itself (`GatewayLease.GateReopens`; a run:
  `BootstrapLease.GateReopensOverUnloading`). Afterwards no load of the model starts until it is
  activated or edited again (`GatewayLease.RolledBackStaysUnloaded`).
* **A cancelled bootstrap.** `_guarded_enable` does not wait for the thread of a writer when it is
  cancelled. A cancelled run therefore leaves a thread that may still enable a model on disk if and only
  if it was cut in a step that enables the model on a complete proof (`Applier.CutRunLeaves`). What is
  enabled on disk was proved in every case, and no such thread is about a model that was compensated
  (`Applier.EnabledOnDiskIsProved`).
* **Updates of the registry.** `update()` checks neither the length of a description nor that a size is
  finite, the parser does both. The expected document means the new model if and only if the
  description has at most 200 characters and the size is finite (`RegistryPlan.UpdateReparsesIff`);
  otherwise the validation of the written text refuses it, and memory and disk stay as they were.
* **One hash per key and loop.** gateway/integrity.py:23 promises it. With a single event loop it holds
  (`Attestation.OneWorkerPerKey`); with several, a loop starts a second worker exactly when the entry
  in flight belongs to another loop or is gone (`Attestation.SecondWorkerIff`; a run:
  `Attestation.TwoWorkersOnOneLoop`).
* **The newline split.** The drainer cuts over-long lines, so its output is the newline split of the
  input exactly when no open line exceeds the bound between two reads (`PipeDrainer.DrainIsSplitIff`).
* **Migrations.** A process may finish normally on a database that is newer than its code: exactly when
  another one has committed a migration it does not know (`Migrations.FinishedOnOwnVersionIff`).
* **Dead branches.** The branch of `_load_and_signal` that kills a process which came up after a
  concurrent unload is never taken (`ServerLifecycle.AbandonBranchUnreachable`), nor are three branches
  of the node agent's `_load_serialized` (`NodeSteps.LoadFindsNoManager`).

## Model

| member | source | states |
|---|---|---|
| ServerLifecycle.ReachableLifecycle | gateway/server_manager.py:251-416 | In every state reachable by any interleaving: READY implies a process handle, UNLOADED implies none and no load task, a finished round has its event set, LOADING means a load task and no unload |
| ServerLifecycle.ReadyOnlyFromOwnRound | gateway/server_manager.py:355-416 | The step behind ReachableLifecycle and ReturnsOnlyReady: READY is entered from LOADING, by the load task of that round, which sets the event of that round |
| ServerLifecycle.AbandonBranchUnreachable | gateway/server_manager.py:365-380 | When a process answers its health check the instance is still LOADING: the kill-after-unload branch is dead code |
| ServerLifecycle.NoWaiterForgotten | gateway/server_manager.py:264-313 | For every run after a caller was told to wait: its event is set, or that very round is still loading or being torn down |
| ServerLifecycle.ReturnsOnlyReady | gateway/server_manager.py:251-313 | At whatever point of whatever run ensure_loaded is entered or resumed: it returns exactly on a READY instance, which has a process; it waits exactly on a LOADING or UNLOADED one, for the round that is then current and not over; it raises exactly on an UNLOADING one |
| ServerLifecycle.WorkProceeds | gateway/server_manager.py:355-416 | A load or unload whose caller was not cancelled in the kill is never stuck: one of its own events is enabled, each such event leaves less to do, and none is left exactly in READY and UNLOADED |
| ServerLifecycle.PhasesInOrder | gateway/server_manager.py:317-416 | A process is started only after an attestation of the same round, READY is reached only through its health check, and a process handle is given up only in a kill or a detected crash |
| ServerLifecycle.LoadSucceeds | gateway/server_manager.py:251-384 | From any reachable UNLOADED instance the events of an undisturbed load lead to READY, with the event of the round set, so that its waiters return |
| ServerLifecycle.UnloadSucceeds | gateway/server_manager.py:585-650 | From any reachable READY or LOADING instance those of an undisturbed unload lead to UNLOADED without a process |
| ServerLifecycle.ServerManager.EnsureLoadedEnter | gateway/server_manager.py:259-281 | Entering ensure_loaded: the new state and the answer; returning means READY, waiting means LOADING on an unset event of the last round |
| ServerLifecycle.ServerManager.EnsureLoadedResume | gateway/server_manager.py:298-313 | After the wait: returns only if READY and then touches the activity time, else raises and changes nothing |
| ServerLifecycle.ServerManager.LoadHealthy | gateway/server_manager.py:365-384 | The end of a load: the new state, which is READY in every reachable state |
| ServerLifecycle.ServerManager.LoadFailureKilled | gateway/server_manager.py:400-416 | A failed load ends UNLOADED, without a process, with its event set |
| ServerLifecycle.ServerManager.UnloadClaim | gateway/server_manager.py:591-611 | unload claims exactly LOADING and READY instances, and cancels the load task |
| ServerLifecycle.ServerManager.UnloadFinish | gateway/server_manager.py:636-650 | The end of an unload: UNLOADED without a process |
| ServerLifecycle.ServerManager.MonitorTick | gateway/server_manager.py:742-808 | One tick of the watchdog: a dead process is found exactly when READY and exited, an unload begins exactly when idle and unpinned; a pinned live instance is left alone |
| ServerLifecycle.ServerManager.UnpinRequest | gateway/server_manager.py:223-235 | One pin fewer, clamped at zero; waiters for capacity are notified exactly when it was the last |
| GatewayPool.ReleaseKeepsPartition | gateway/model_manager.py:599-620 | Releasing a manager keeps free and allocated ports a partition of the range, without duplicates; the port comes back once |
| GatewayPool.RegisterKeepsPartition | gateway/model_manager.py:282-286 | So does registering one under the first free port |
| GatewayPool.WithoutKeepsOthers | gateway/model_manager.py:513-526 | A ticket that leaves takes no other ticket with it |
| GatewayPool.WithoutKeepsOrder | gateway/model_manager.py:513-526 | ... and the others keep their order |
| GatewayPool.LocalModelManager.ReleaseManager | gateway/model_manager.py:599-620 | Releases the entry and the port exactly if the expected instance is still registered; a replaced instance changes nothing |
| GatewayPool.LocalModelManager.RegisterManager | gateway/model_manager.py:282-286 | Pops the first free port, which no allocation has, and registers the manager under it |
| GatewayPool.LocalModelManager.Enqueue | gateway/model_manager.py:463-486 | A ticket is accepted at the end of the queue exactly while the bound is not reached, so the bound is kept |
| GatewayPool.LocalModelManager.RemoveTicket | gateway/model_manager.py:513-526 | The queue without the ticket, the others in order |
| GatewayPool.LocalModelManager.IsTurn | gateway/model_manager.py:431-436 | True exactly for the head ticket, or for a newcomer in front of an empty queue |
| GatewayPool.LocalModelManager.UsedVram | gateway/model_manager.py:388-395 | The sum of the declared sizes of the READY and LOADING managers the registry knows |
| GatewayPool.LocalModelManager.ChooseVictim | gateway/model_manager.py:622-641 | The least recently used READY manager without requests other than the excluded model; none exactly when there is none |
| GatewayTheorems.AllocatorSafety | gateway/model_manager.py:209-309 | In every state of every run: free and allocated ports partition the range without duplicates, managers and allocations have the same keys, an instance serves the model and port it is registered under, the queue has no duplicates, is bounded and holds only tickets of callers that still wait, READY implies a process |
| GatewayAdmission.NeverOverwrites | gateway/model_manager.py:271-292 | After any step an entry was there before, or is for a model that had none and an instance that did not exist |
| GatewayAdmission.RegistrationsNeverOverwrite | gateway/model_manager.py:271-292 | ... hence in every run registering a manager never replaces one |
| GatewayAdmission.LaunchOnlyAtTurn | gateway/model_manager.py:424-458 | A load starts only for the head ticket or for a newcomer to an empty queue, of an admitted model without a manager, that fits the budget and the measured memory, and its ticket leaves; CapacityIff is the exact condition |
| GatewayDecisions.CapacityIff | gateway/model_manager.py:407-526 | In whatever step a caller asks for capacity (a newcomer, after the wait for the condition or for an unload, at its ticket, after its eviction): it is given capacity if and only if it is admitted, at its turn, its size fits into what the net budget and the measurement leave, a port is free, and it either need not evict any more or finds nothing that is or may become idle; it then has the first free port and its load begins |
| GatewayDecisions.QueueDecides | gateway/model_manager.py:424-498 | What becomes of a caller at its ticket, in every case: turned away, parked, evicting the least recently used idle instance, or given capacity, with the whole new state |
| GatewayDecisions.EvictionDecides | gateway/model_manager.py:439-498 | The same after an eviction, on the pool that the eviction has left |
| GatewayDecisions.EnterDecides | gateway/model_manager.py:248-292 | The same for a caller that enters and finds no manager; a model larger than the budget is refused |
| GatewayDecisions.GetCondDecides | gateway/model_manager.py:271-292 | The same after the wait for the condition |
| GatewayDecisions.RecheckDecides | gateway/model_manager.py:335-370 | The same after the wait for the unload of the manager |
| GatewayService.EnterManaged | gateway/model_manager.py:248-299 | A caller that enters and finds a manager, in every case: READY serves it if and only if it is admitted; LOADING is joined in its current round, UNLOADED restarted, UNLOADING waited for, or refused without a queue |
| GatewayService.GetCondManaged | gateway/model_manager.py:271-299 | The same after the wait for the condition |
| GatewayService.RecheckManaged | gateway/model_manager.py:335-370 | The same after the wait for an unload |
| GatewayService.WakeDecides | gateway/model_manager.py:294-309 | A caller whose round is over is served if and only if the instance is READY and its model admitted; else it forgets the manager |
| GatewayService.TimeoutDecides | gateway/server_manager.py:283-297 | A load that times out is unloaded, while its caller waits, exactly if the instance is LOADING or READY |
| GatewayService.RequestIsServed | gateway/model_manager.py:209-299 | From any reachable state with room for its model and nobody in its way: eight steps later the request is served by a new READY instance on the first free port, pinned if it proxies, and all else is as it was |
| GatewayService.EvictionMakesRoom | gateway/model_manager.py:439-458 | From any reachable state in which a caller is evicting: if it is admitted and fits once the victim is gone, two steps later the victim is out of the pool with its port, the caller out of the queue, and its load has begun |
| GatewayService.FailureIsUndone | gateway/model_manager.py:294-309 | From any reachable state in which a load has failed: two steps later its manager and its port are given back, and its caller is at the top of its one second attempt, or gone with its lock |
| GatewayService.UnloadsBegin | gateway/server_manager.py:585-611 | The idle monitor and unload_all_models begin to unload an instance exactly if it is READY or LOADING |
| GatewayService.CancelLeaves | gateway/model_manager.py:248-309 | A cancelled caller is gone with its ticket, its lock and the condition it held; a kill it waited for is never finished, and nothing else changes |
| GatewayAdmission.CapacityIsFifo | gateway/model_manager.py:424-526 | While a caller keeps its ticket no caller behind it, or not yet queued, is given capacity, in any run |
| GatewayAdmission.AheadOverRun | gateway/model_manager.py:459-526 | Who is ahead in the queue stays ahead for as long as it is queued |
| GatewayAdmission.ClosedModelsStayAway | gateway/model_manager.py:209-246 | Over any stretch of a run in which a model is not admitted, no manager of it appears |
| GatewayGate.LoadBehindGateIff | gateway/model_manager.py:263-295 | While a model is not admitted, a step starts a load of it if and only if a caller that is past the admission test gets the condition and finds an UNLOADED manager registered |
| GatewayGate.PastTestSinceClosing | gateway/model_manager.py:263-271 | Over any stretch of a run with closed admission, a caller that is past the test was past it when the stretch began |
| GatewayGate.NothingLoadsBehindGate | gateway/model_manager.py:263-295 | Over such a stretch a load starts if and only if a caller that was past the test at its beginning reaches an UNLOADED manager; with no such caller none starts |
| GatewayGateRun.LoadStartsBehindGate | gateway/model_manager.py:263-295 | A concrete run of twenty-five enabled steps in which that happens |
| GatewayGate.NothingLoadsUnderUnload | gateway/model_manager.py:666-751 | While unload_model holds the lock of a model, no load of it starts and no caller is past its admission test |
| GatewayGate.UnloadLeaves | gateway/model_manager.py:705-751 | When unload_model returns normally, a manager of the model is still registered if and only if the end of the drain found one UNLOADING or UNLOADED; after its own unload there is none; none is LOADING or READY |
| GatewayService.OperatorDrains | gateway/model_manager.py:681-727 | The start of unload_model: without a manager it leaves at once; else it holds the lock and the model admits nobody |
| GatewayService.OperatorDecides | gateway/model_manager.py:705-751 | The end of the drain: the manager begins to be unloaded if and only if it is READY or LOADING and serves no request or is unloaded by force; else nothing changes but the lock and the drain |
| GatewayService.OperatorUnloads | gateway/model_manager.py:666-751 | From any reachable state with a READY model that serves no request, or by force: five steps later it has no manager, its port is free, its lock and drain are gone, and all else is as it was |
| GatewayGate.EveryStepIsAPoolMove | gateway/model_manager.py:209-309 | Every step of the whole pool is a move that the model of the lease allows: what BootstrapLease takes from the pool is derived |
| GatewayPins.PinSafety | gateway/model_manager.py:622-641 | No unforced step (eviction, idle monitor, load timeout, drain, cancellation) takes a pinned instance out of READY or removes one of its pins; the first pin of a request is put only on a READY instance of an admitted model, a further one only on an instance that was handed out |
| GatewayPins.ServedStaysReady | gateway/model_manager.py:815-867 | Over a run without forced unloads, an instance that is always pinned stays READY |
| GatewayPins.LatePinFoundNoGuard | gateway/proxy.py:489-505 | A further pin lands on an instance that is not READY only if something was forced or the instance was without any pin in between, its guard having been released |
| GatewayPins.OnlyRestartsStart | gateway/model_manager.py:271-295 | Of the instances that exist, none starts to load in any step but one that restarts an UNLOADED registered manager |
| GatewayBudget.BudgetHolds | gateway/model_manager.py:388-458 | In particular: the sizes of READY and LOADING managers stay within the net budget in every run without cancelled callers and registry edits, whatever is measured |
| GatewayBudget.BudgetLostByRestarts | gateway/model_manager.py:271-295 | With a fixed registry and any cancellations, a step leaves the budget if and only if it restarts an UNLOADED manager whose size does not fit; every other step of the whole system keeps it |
| GatewayBudget.BudgetIffRestartsFit | gateway/model_manager.py:388-458 | Over every run with a fixed registry: used VRAM stays within the net budget throughout if and only if every restart that is taken fits |
| GatewayOverrun.BudgetCanBeExceeded | gateway/model_manager.py:276-277 | A concrete run of thirteen enabled steps from the initial state to twice the budget |
| GatewayEviction.LateCallbackIsNoOp | gateway/model_manager.py:645-651 | The step behind AllocatorSafety: the callback of a replaced instance changes nothing in the pool, that of the current one gives back exactly its port |
| GatewayEviction.EvictionLoop | gateway/model_manager.py:447-458 | After each eviction the loop stops exactly when there is room or no victim; otherwise it takes the least recently used READY unpinned model, with one manager fewer left |
| GatewayEviction.MeanwhileNothingIsAdded | gateway/model_manager.py:439-458 | While a victim is unloaded, whatever the others do, no manager is added |
| GatewayEviction.EvictionsAreBounded | gateway/model_manager.py:439-458 | Over any run the evictions of one loop are bounded by the managers registered when it began |
| GatewayOrphans.OrphanedIff | gateway/model_manager.py:592-620 | An instance leaves the pool without being UNLOADED in exactly one kind of step: its caller forgets it while it is the manager of its model and not UNLOADED; its port is free from then on |
| GatewayOrphans.PortsCleanIff | gateway/model_manager.py:592-620 | Over every run: no port is ever free under an instance that is not UNLOADED, and no two of those share one, if and only if no caller ever forgets such a manager; a process implies that an instance is not UNLOADED |
| GatewayOrphans.PortFreedUnderReady | gateway/model_manager.py:294-300 | It happens, from any reachable state with room for a model: ten steps in which its admission closes at the end of its load lead to a READY instance with a live process, in nobody's pool, whose port is free |
| ProxyPins.CounterIsExact | gateway/proxy.py:477-509 | In every interleaving the counter is live guards plus running streams plus running plain requests; a guard that is over was released exactly once, a live one never and has its timer |
| ProxyPins.ClampIsNeverReached | gateway/server_manager.py:223-235 | No step unpins below zero: the counter moves by exactly the pins and unpins of the step |
| ProxyPins.NoGapInHandOver | gateway/proxy.py:477-509 | From the guard to the end of the generator the instance stays pinned, unless the timer fires or the handler gives up |
| ProxyPins.EveryWayReleases | gateway/proxy.py:477-640 | From any reachable state a streamed request may be read to its end, fail to open, be refused by the upstream, or lose its client before or after that; in each case the counter and the timers are then what they were, and the guard was released once |
| ProxyPins.PlainReleases | gateway/proxy.py:641-651 | A request that is not streamed pins while it runs, and no longer |
| ProxyPins.RefusedNeverStreams | gateway/proxy.py:567-605 | Over every run: a request that the upstream has refused never streams |
| ProxyPins.OnlyAnsweredStreams | gateway/proxy.py:593-640 | ... and one that streams was answered with a stream |
| ProxyPins.OthersUntouched | gateway/proxy.py:477-509 | A step of one request leaves the pins, the timer and the place of every other one alone |
| ProxyPins.GuardedStream.ReleaseStreamGuard | gateway/proxy.py:481-487 | Releases the guard pin once; later calls change nothing |
| ProxyPins.GuardedStream.CloseUnclaimedStream | gateway/proxy.py:489-505 | The timer releases the guard of a response whose generator never started, once |
| ProxyPins.GuardedStream.StartGenerator | gateway/proxy.py:751-753 | The generator pins before the guard goes, so the counter never passes through zero |
| NodeAgent.AgentState.PruneOperations | node_agent/main.py:377-403 | Drops expired results, then the oldest results until the bound holds or only live operations are left |
| NodeAgent.AgentState.DropExpired | node_agent/main.py:377-390 | Keeps exactly the operations that are live or recent |
| NodeAgent.AgentState.Oldest | node_agent/main.py:391-403 | The candidate that was created first |
| NodeAgent.AgentState.StartLoad | node_agent/main.py:459-553 | Prunes, then replays, joins, refuses, answers READY or starts, with the whole new state of the tables; which of these is NodeAnswers.StartAnswers, what it leaves NodeAnswers.StartLeaves |
| NodeAgent.AgentState.Accept | node_agent/main.py:462-553 | The decision on the pruned tables and its effect on operations and active entries, as NodeAnswers.StartAnswers characterises them |
| NodeAgent.AgentState.ReturnPort | node_agent/main.py:900-910 | The port goes back to its place in the sorted pool, once |
| NodeAgent.AgentState.ReleaseManager | node_agent/main.py:900-910 | Only the expected instance is released, with its port and its identity |
| NodeAgent.AgentState.ReservePort | node_agent/main.py:814-831 | The smallest free port is reserved for the new manager |
| NodeAgent.AgentState.EndOperation | node_agent/main.py:689-753 | The end of an operation: its result, its active entry if it is still its own, the recorded identity |
| NodeSteps.StepKeepsInv | node_agent/main.py:615-870 | Every step keeps the invariant that ties operations, locks, instances, ports and identities together |
| NodeSteps.LoadFindsNoManager | node_agent/main.py:769-795 | Whenever a load gets to run its model has no manager: the branches for READY, LOADING and UNLOADING are never taken |
| NodeTheorems.OneLoadPerModel | node_agent/main.py:415-553 | In every run an operation is not terminal exactly when it is its model's active one, and two tasks never load one model |
| NodeTheorems.SecondLoadNeverStarts | node_agent/main.py:459-553 | A request starts a load only for a model without active operation and without manager; any other answer starts nothing and touches no manager |
| NodeTheorems.ReplayAndJoin | node_agent/main.py:429-501 | Replaying an identifier, or asking again for the same digest during a load, yields that very operation unless a generation is named that is not its own; both directions are NodeAnswers.EntryAnswers and NodeAnswers.StartAnswers |
| NodeAnswers.EntryAnswers | node_agent/main.py:429-457 | Before the model lock: a known identifier is answered with its operation exactly if the request names nothing that is not its own, and with a conflict otherwise; an unknown one goes on exactly if the digest it names is that of its definition |
| NodeAnswers.StartAnswers | node_agent/main.py:459-553 | Under the lock, in every reachable state and exactly: deadlines out of bounds are refused; a known identifier is observed if it is the same deployment, else a conflict; a load in progress is joined if and only if its digest is the request's and a named generation is its own, else a conflict; a loaded manager answers READY if and only if it has that digest, else a conflict; in every other case a load starts |
| NodeAnswers.StartLeaves | node_agent/main.py:507-553 | What each answer leaves: a finished operation for READY, an accepted one with its task for a started load, the pruned tables otherwise |
| NodeTheorems.OtherDigestRefused | node_agent/main.py:503-506 | A READY manager with no active operation answers READY exactly to the digest it was loaded from, and refuses any other |
| NodeTheorems.TerminalIsAbsorbing | node_agent/main.py:615-753 | No step changes a finished operation it does not prune |
| NodeTheorems.ResultsAreFinal | node_agent/main.py:615-763 | ... hence over any run a retained result never changes |
| NodeTheorems.PruneKeepsLive | node_agent/main.py:377-403 | Pruning drops no live operation, and exceeds the bound only with live operations |
| NodeAnswers.PruneBounds | node_agent/main.py:377-403 | In numbers: what finished more than 600 seconds ago goes, later ones go only while 256 are kept, and more than 256 stay only if none of them could go |
| NodeAnswers.EndsExactly | node_agent/main.py:615-763 | In a step of its own task an operation ends DEADLINE_EXCEEDED, FAILED or READY exactly in the cases listed, with its result, its time and the recorded identity; it is then nobody's active operation and holds no lock |
| NodeAnswers.LoadLaunchesIff | node_agent/main.py:797-858 | A load that gets to run takes the smallest free port and starts its manager if and only if a port is free and its size fits the net budget and the measured memory |
| NodeAnswers.WaiterServedIff | node_agent/main.py:836-858 | A load whose round is over succeeds if and only if its instance is READY; else its manager is released |
| NodeAnswers.UnloadDecides | node_agent/main.py:857-870 | An unload request that gets the lock begins to unload the manager of a loaded model, which is READY, and leaves a model without manager alone; lock and port are kept until the unload is over |
| NodeAnswers.LoadSucceeds | node_agent/main.py:415-763 | From any reachable state in which a request may be accepted and fits: eleven steps later its operation is READY, its manager serves on the smallest free port, its identity is recorded, and all else is as it was |
| NodeAnswers.UnloadSucceeds | node_agent/main.py:857-870 | From any reachable state with a loaded model: three steps later it has no manager and no identity, its port is free, and all else is as it was |
| NodeTheorems.PortsOutliveProcesses | node_agent/main.py:857-910 | In every run: a port is free only when the process last started on it is gone, and no two instances have processes on one port, unless a deadline fell into the kill of that instance |
| NodeTheorems.StuckIff | node_agent/main.py:656-666 | An instance stays UNLOADING for good if and only if such a deadline happened |
| NodeTheorems.AbandonedKillFreesPort | node_agent/main.py:603-613 | Exactly when a port comes back under a live process: a kill of a live process was in progress when the deadline landed |
| NodeTheorems.BudgetAndPorts | node_agent/main.py:304-318 | In every run the sizes of READY and LOADING managers stay within the net budget, and free and allocated ports partition the range |
| NodeAbandonedKill.PortFreedUnderLiveProcess | node_agent/main.py:656-666 | A concrete run of fourteen enabled steps to a free port with a live process |
| BootstrapLease.StepKeepsInv | gateway/admin.py:280-640 | Every request, lease expiry and manager move keeps the invariant of the protocol |
| BootstrapLease.FailClosed | gateway/admin.py:481-517 | In every state: while rolling back the gate is closed and the target disabled in memory; while active memory is the baseline with only the target replaced by the calibrated live entry; the gate is closed only while rolling back |
| BootstrapLease.GateReopensDisabled | gateway/admin.py:301-316 | The gate reopens only at the end of a rollback, in the phase rolled_back with the target disabled in memory, on what unload_model leaves (GatewayGate.UnloadLeaves) |
| BootstrapLease.GateReopensOverUnloading | gateway/admin.py:301-316 | A run in which the gate reopens while the idle monitor is still unloading the target |
| BootstrapLease.NothingLoadsWhileClosed | gateway/model_manager.py:218-246 | Over a rolling_back stretch no manager of the target appears, nobody comes past the admission test, and no manager starts to load unless a caller was past the test when the stretch began |
| BootstrapLease.EndingsAreFinal | gateway/admin.py:565-585 | The step behind ExactlyOneWins: a recorded ending is never changed |
| BootstrapLease.ExactlyOneWins | gateway/admin.py:280-320 | Of lease expiry, confirm and rollback exactly one ends an activation, in any run |
| BootstrapLease.OpenActivationIsWatched | gateway/admin.py:269-300 | An activation is open exactly while its watchdog exists, and the watchdog can always end it |
| BootstrapLease.ConfirmMatchesDisk | gateway/admin.py:587-640 | A confirm succeeds only if the target on disk is the live entry in the file just checked as current, and leaves memory equal to that file |
| BootstrapLease.ConfirmAccepts | gateway/admin.py:587-640 | An open activation is confirmed on a current file if and only if that file is what is served |
| BootstrapLease.RollbackAccepts | gateway/admin.py:525-572 | In every reachable state: a rollback begins if and only if the activation is open, rolling back or confirmed, the file is the one that was named, unchanged, and means the baseline, and memory has its other entries; it closes the gate, publishes the disabled entry, stops the watchdog and drains, and ends an open activation as rolled back by request; it is replayed exactly on the file of a finished one |
| BootstrapLease.OpenRollsBack | gateway/admin.py:525-572 | In particular an open activation, and a rollback that failed, is rolled back on a current file if and only if the file means the baseline; a confirmed one if the memory agrees too |
| BootstrapLease.ActivateAccepts | gateway/admin.py:403-517 | An activation is opened if and only if none is open or rolling back, the file is the one that was named, with the model disabled, memory has its other entries, no manager of the model is about and its size fits; what it then publishes |
| BootstrapLease.ActivateReplays | gateway/admin.py:403-480 | While it is open the same request is a replay if and only if it names the same document, size and lease and nothing has changed |
| BootstrapLease.ExpiryDecides | gateway/admin.py:280-300 | The watchdog of an open activation closes the gate and publishes the disabled entry; that of one that has ended does nothing |
| BootstrapLease.DrainDecides | gateway/admin.py:301-320 | After the drain the rollback is over if and only if unload_model has returned and, in a request, the file is still the one it was asked for; else the gate stays closed for a retry |
| BootstrapLease.ConfirmDecides | gateway/admin.py:587-640 | A confirm succeeds if and only if the activation is open and the file that was named, unchanged, means what is served; a confirmed one is replayed exactly on its file |
| BootstrapLease.TrialSucceeds | gateway/admin.py:403-640 | From any state that accepts an activation: confirmed with the file that has the live entry it is served from it; or rolled back and unloaded, with the gate open on the disabled entry |
| BootstrapLease.ReplaysChangeNothing | gateway/admin.py:403-607 | Replaying an accepted activate, rollback or confirm on an unchanged file changes nothing |
| BootstrapLease.BootstrapSync.ActivateModel | gateway/admin.py:403-517 | Activate: refusals, replay, and the published memory with the calibrated target |
| BootstrapLease.BootstrapSync.RollbackModel | gateway/admin.py:525-572 | Rollback up to the drain: the gate closed and the target disabled before the first suspension; when it is accepted is RollbackAccepts |
| BootstrapLease.BootstrapSync.LeaseExpires | gateway/admin.py:291-304 | Lease expiry up to the drain: the same, from the watchdog |
| BootstrapLease.BootstrapSync.RollbackDrained | gateway/admin.py:571-585 | After the drain the gate reopens only on success, in the request and in the watchdog |
| BootstrapLease.BootstrapSync.ConfirmModel | gateway/admin.py:587-640 | Confirm: refusals, replay, and memory left as it is served |
| GatewayLease.JointStepKeeps | gateway/admin.py:403-640 | Every act of the joint system (a step of the pool, a stretch of a handler, the end of the unload, an edit) keeps the invariants of both and their agreement on gate, registry entry, manager and callers |
| GatewayLease.PoolSeesThePhase | gateway/admin.py:525-572 | In every state of every joint run: the gate of the pool is closed exactly while a rollback is under way, the model is then disabled in the registry that the pool reads; while an activation is open it is enabled there with the calibrated size |
| GatewayLease.LoadsDuringRollback | gateway/model_manager.py:263-295 | Throughout a rollback in any joint run a load of the model starts if and only if a caller that was past the admission test when the rollback began reaches an UNLOADED manager |
| GatewayLease.GateReopens | gateway/admin.py:571-585 | The gate opens only in the normal return of the unload that the rollback waits for; the model is then disabled, nobody is past the test, no manager is LOADING or READY, and one is still registered if and only if the end of the drain found it UNLOADING or UNLOADED |
| GatewayLease.RolledBackStaysUnloaded | gateway/admin.py:525-585 | From then until an accepted activation or an edit, in any joint run: nobody is admitted, no manager of the model is LOADING or READY, and no act starts a load of it |
| GatewayLease.EveryPoolStepIsAnAct | gateway/model_manager.py:209-309 | The joint system leaves out no step of the pool that does not touch the gate or the registry |
| GatewayLease.LeaseRunWithin | gateway/admin.py:269-640 | The states of the lease in a joint run are those of a run of the lease: what BootstrapLease takes from the pool holds there |
| GatewayLease.PoolRunWithin | gateway/model_manager.py:209-309 | ... and those of the pool are states of a run of the pool |
| Applier.OutcomeLeavesNothingProvisional | gateway/bootstrap/applier.py:1098-1197 | Whatever executors, writer, gateway and cancellations do, an outcome is returned only with no provisional model left and none that the gateway may still serve unconfirmed; that a plan also succeeds is PlanSucceeds |
| Applier.SmokeDecides | gateway/bootstrap/applier.py:602-792 | The test of a provisional, calibrated model ends Done if and only if its recipe is Done and names the model, the confirmation is written or was there, says what is published, and the gateway answers; the model is then proved, no longer open or marked, and enabled on disk if that was written |
| Applier.SmokeOfEnabled | gateway/bootstrap/applier.py:740-792 | The test of a model that is not provisional: only its proof is recorded, or, if it awaits a confirmation, that too, and exactly when it ends Done |
| Applier.CalibrationDecides | gateway/bootstrap/applier.py:560-598 | A calibration succeeds exactly if its executor does and its evidence is usable; the proof is recorded for the model that the evidence names, and nothing else changes |
| Applier.EnableDecides | gateway/bootstrap/applier.py:798-894 | What a step that enables a model does, in every case: on a complete proof it is enabled for good; on a calibration alone it is opened provisionally, Done if and only if the writer allows it, says what is published, and the gateway answers; with neither nothing is tried |
| Applier.FailedSmokeCompensates | gateway/bootstrap/applier.py:602-748 | Every other end of the test of a provisional model compensates before it returns: the model is unmarked exactly if the compensation works; a cancelled confirmation of the gateway leaves that to the end of the run |
| Applier.FailedOpeningCompensates | gateway/bootstrap/applier.py:827-894 | So does a provisional opening that the gateway does not answer |
| Applier.ApplicationDecides | gateway/bootstrap/applier.py:1098-1197 | How an application ends: an outcome with the results of its run if the run came to an end and nothing was left to clean, an error exactly if a compensation failed, cancelled otherwise; the first step that fails is the last one |
| Applier.PlanSucceeds | gateway/bootstrap/applier.py:1098-1197 | A plan that calibrates, opens and tests any number of new models, everybody doing their part: all steps are Done, exactly those models are enabled on disk in addition, none is open or marked, and no writer is left behind |
| Applier.TrialSucceedsIff | gateway/bootstrap/applier.py:1098-1197 | Calibrate, enable and test one new model: all three are Done if and only if the calibration names the model, the opening is written and answered, the test names the model, and the confirmation is written or there, says what is published, and is answered |
| Applier.FinalActivationIsProved | gateway/bootstrap/applier.py:798-894 | Final activation is called only with a supplied proof or after both halves were recorded by successful steps; provisional activation only after calibration |
| Applier.CompensationIsExact | gateway/bootstrap/applier.py:899-964 | The step behind OutcomeLeavesNothingProvisional: a model stops being provisional if and only if its entry is disabled on disk and, when applying, the gateway answered |
| Applier.EnabledOnDiskIsProved | gateway/bootstrap/applier.py:111-132 | However a run ends, cancelled or not: a model that it has enabled in models.yaml, or that an abandoned writer may still enable, was proved before; no such writer is about a model that was provisional, and when the cleaning went through those are disabled on disk, closed in the gateway and unmarked |
| Applier.CutRunLeaves | gateway/bootstrap/applier.py:798-827 | A run leaves behind a thread that may still enable a model if and only if it was cut in a step that enables that model on a complete proof; what that thread read has every provisional model disabled; an outcome leaves none |
| Applier.ProofChainFindings | gateway/bootstrap/applier.py:1017-1072 | Reports exactly the activations that no supplied proof and no earlier steps can justify |
| Applier.ProofLedger.Lookup | gateway/bootstrap/applier.py:284-294 | A proof is found exactly if both halves were recorded or one was supplied, never half a proof |
| Applier.ProofLedger.Missing | gateway/bootstrap/applier.py:271-280 | Nothing is missing exactly when a proof is found |
| Applier.ProofLedger.Mark | gateway/bootstrap/applier.py:249-251 | Marks one model as provisional and leaves all else |
| Applier.ProofLedger.Clear | gateway/bootstrap/applier.py:256-260 | Clears exactly one model |
| RegistryEntries.ParseIsReading | gateway/model_registry.py:597-760 | An entry parses to a model exactly if it has only known keys, every field reads as that model's, and the fields agree with each other |
| RegistryEntries.PrintReads | gateway/model_registry.py:424-467 | Key by key, what is printed reads back as the same field exactly if the field is valid |
| RegistryEntries.RoundTrip | gateway/model_registry.py:424-467 | parse(to_dict(m)) = m if and only if m is a valid model |
| RegistryEntries.ParsedIsValid | gateway/model_registry.py:597-760 | Whatever was parsed is valid and so survives printing and parsing |
| RegistryEntries.ParseMeans | gateway/model_registry.py:597-760 | An entry is accepted as m if and only if every key it has is known and says what m has, every key it lacks has its default in m (the values are spelled out, those of the nested objects included), and capabilities and projector agree |
| RegistryEntries.MinimalEntry | gateway/model_registry.py:597-760 | An identifier, a path and a size are enough; the model that they mean, in full |
| RegistryEntries.IdentifierEdges | gateway/model_registry.py:762-770 | Which identifiers are accepted at the edges of the pattern: 63 characters, the first of them no punctuation, and a final newline that the anchor lets through |
| RegistryDelta.ToDictInjective | gateway/model_registry.py:424-467 | Two models that print the same are the same, so comparing printed forms compares models |
| RegistryDelta.LlamaMerge | gateway/model_registry.py:1200-1216 | Merging the delta of the nested parameters yields the wanted parameters, with defaults left unwritten |
| RegistryDelta.DeltaMeaning | gateway/model_registry.py:1147-1216 | An entry retouched by its delta parses to exactly the new model |
| RegistryPlan.PlanMeaning | gateway/model_registry.py:1023-1091 | The expected document of an accepted plan reparses, id by id, to exactly the new models |
| RegistryPlan.Verbatim | gateway/model_registry.py:1147-1216 | An entry whose model is unchanged is kept as it is, and in a changed one every key with the same meaning keeps its raw value |
| RegistryPlan.KeptInOrder | gateway/model_registry.py:1041-1079 | The entries that stay keep the order of the file |
| RegistryPlan.PlannedIffDiskMatches | gateway/model_registry.py:1093-1145 | A mutation is planned if and only if the file still means the previous memory |
| RegistryPlan.UpdateReparsesIff | gateway/model_registry.py:868-912 | The expected entry of an update means the new model, and parses at all, if and only if the description has at most 200 characters and the size is finite |
| RegistryPlan.ModelRegistry.IndexEntries | gateway/model_registry.py:1023-1037 | The index is built exactly for a document whose entries are mappings with distinct ids, and has exactly their ids |
| RegistryPlan.ModelRegistry.CheckDisk | gateway/model_registry.py:1108-1145 | Accepts exactly a document that means the previous memory |
| RegistryPlan.ModelRegistry.RetouchEntries | gateway/model_registry.py:1041-1079 | The loop over the entries of the file computes the retouched document, or refuses |
| RegistryPlan.ModelRegistry.AppendEntries | gateway/model_registry.py:1084-1091 | The loop over the new models appends exactly those the file does not have |
| RegistryPlan.ModelRegistry.Save | gateway/model_registry.py:932-970 | Success: the memory is kept and the file means it; refusal: memory and file are those of before the mutation; a matching, writable file and valid models are not refused |
| RegistryPlan.ModelRegistry.Add | gateway/model_registry.py:828-841 | Adds the parsed model in memory and on disk, or changes nothing; invalid exactly if the entry does not parse, refused as known exactly if its id is, and done whenever neither holds and the file means the memory and is writable |
| RegistryPlan.ModelRegistry.SetEnabled | gateway/model_registry.py:842-867 | Changes exactly the enabled flag of exactly one model, in memory and on disk, every other field and model as before, or nothing; done whenever the model is known and the file means the memory and is writable |
| RegistryPlan.ModelRegistry.UpdateModel | gateway/model_registry.py:868-912 | On success the model has the given description, size, enabled flag and parameters where they are given and its old ones where not, all other fields and models are as before, and the file means the memory; or nothing changes; invalid exactly for bad parameters or a size of at most zero; on a matching, writable file an update that passes the checks is written if and only if its description has at most 200 characters and its size is finite |
| RegistryPlan.ModelRegistry.Remove | gateway/model_registry.py:914-930 | Removes exactly one model, the others in their order, in memory and on disk, or changes nothing; done whenever the model is known and the file means the memory and is writable |
| Attestation.ReadsAll | gateway/integrity.py:71-77 | However many reads it takes, an unchanged file is hashed completely and in order |
| Attestation.ReadInChunks | gateway/integrity.py:71-77 | The read loop on an unchanged file: its chunks are its content |
| Attestation.FlightIsSound | gateway/integrity.py:80-95 | If the identity is the same before and after, the hash is that of the file at every instant of the flight |
| Attestation.HitIsSound | gateway/integrity.py:217-229 | The step behind AttestationIsSound: a cache hit means the file at the caller's own stat hashes to the declared digest |
| Attestation.AttestationIsSound | gateway/integrity.py:178-255 | In every run: a hit is sound at its stat, a success through a flight is sound throughout that flight, the cache is bounded |
| Attestation.OnlyConformingFlightsEnter | gateway/integrity.py:126-175 | Only the landing of a conforming flight changes the cache |
| Attestation.LandingRecords | gateway/integrity.py:126-175 | The cache after such a landing, entry by entry: a key that was there keeps its place with the new identity, a new one goes to the end, and out of 512 entries the oldest makes room |
| Attestation.CallerDecides | gateway/integrity.py:217-255 | A caller is answered from the cache if and only if its key is there with the identity it has just read; else it joins the flight of its key on its own loop if there is one, and starts one if there is none |
| Attestation.AttestedOnce | gateway/integrity.py:178-255 | From any reachable state: a caller that misses starts a flight, its identity is recorded, and a second caller that sees the same identity is answered without a flight |
| Attestation.OneWorkerPerKey | gateway/integrity.py:231-255 | On one event loop at most one worker hashes a key at a time, in any run |
| Attestation.SecondWorkerIff | gateway/integrity.py:235-251 | With several loops, the step that breaks OneWorkerPerKey: a second worker of a loop starts if and only if the entry in flight is gone or another loop's |
| Attestation.TwoWorkersOnOneLoop | gateway/integrity.py:235-251 | A run in which that happens |
| Attestation.IntegrityTables.Lookup | gateway/integrity.py:226-229 | A hit exactly if the recorded identity is the one just read |
| Attestation.IntegrityTables.Claim | gateway/integrity.py:235-251 | Joins the flight of this loop, or starts one and replaces the entry |
| Attestation.IntegrityTables.Record | gateway/integrity.py:165-168 | Records the identity, drops the oldest entry beyond the bound |
| Attestation.IntegrityTables.Drop | gateway/integrity.py:172-175 | Removes the entry only if it is still this flight's |
| Migrations.ContentIsMigrationsUpToVersion | gateway/database.py:377-432 | For any interleaving of processes, errors and crashes the committed content is exactly the migrations up to the stored version, each applied once and in order |
| Migrations.VersionNeverDecreases | gateway/database.py:435-497 | The stored version never decreases |
| Migrations.NewerDatabaseUntouched | gateway/database.py:457-466 | A process that reads a newer database never modifies its schema version or content |
| Migrations.FinishedMeansMigrated | gateway/database.py:435-497 | A process that finished leaves the database at its own version or later |
| Migrations.FinishedOnOwnVersionIff | gateway/database.py:435-497 | ... at its own version if and only if no process has committed a later migration |
| Migrations.VersionDecides | gateway/database.py:453-470 | A version newer than the code is refused, its own is the end, and an older one is brought up to date from the first migration that is missing |
| Migrations.MigrationProceeds | gateway/database.py:377-497 | In every reachable state a process at work has a step of its own unless it waits for the lock, whoever holds the lock is at work under it, and every such step leaves less to do |
| Migrations.AloneFinishes | gateway/database.py:435-497 | From any such state in which no other process has the lock, its own steps alone lead to the end, with every migration it knows applied, or to the refusal of a newer database |
| Migrations.Database.ApplyMigration | gateway/database.py:377-432 | One transaction: the migration as a whole, nothing if another process did it, nothing on an error |
| Migrations.Database.Migrate | gateway/database.py:435-497 | The loop over the pending migrations, others interleaving: without an error in a pending migration it succeeds, success means up to date, a newer database is refused and left alone |
| PipeDrainer.DrainLosesNothing | gateway/server_manager.py:459-511 | For any chunking all bytes but the newlines reach the tail, once and in order (before the tail itself truncates long lines) |
| PipeDrainer.DrainIsSplitIff | gateway/server_manager.py:459-511 | The output is the newline split of the input if and only if after no block but the last the open line has more than 8192 bytes |
| PipeDrainer.FirstCut | gateway/server_manager.py:484-511 | What comes out when a line is cut: the newline split up to that block, and the blocks after it as if they were a stream of their own |
| PipeDrainer.FittingLinesAreKept | gateway/server_manager.py:459-511 | In particular whenever all lines have at most 8192 bytes, for any chunking |
| PipeDrainer.TakeLines | gateway/server_manager.py:488-493 | The inner loop: all complete lines, and the open one |
| PipeDrainer.DrainBlock | gateway/server_manager.py:484-499 | One block: what it emits and the open line it leaves, which is within the bound |
| PipeDrainer.DrainStream | gateway/server_manager.py:459-511 | The whole drain: nothing lost, split when lines fit, at most 8192 bytes buffered between reads |
| NginxParser.ParseBlock | gateway/doctor.py:1480-1501 | The loop with its recursive calls computes the level, on any token list, and ends |
| NginxParser.LevelIsRead | gateway/doctor.py:1480-1501 | Wherever a rendered level stands, before a closing brace or the end, the parser reads its tree and stops there; words left over without a semicolon are dropped, and a block that the text ends in is kept |
| NginxParser.ParseRender | gateway/doctor.py:1480-1501 | Every nested configuration, cut by the end of the text or not, is recovered from its rendered tokens |
| NginxParser.AnythingIsRead | gateway/doctor.py:1480-1501 | Any token list whatever is such a configuration up to a closing brace that closes nothing; it is read up to there, and what follows is not |
| NginxParser.TokenizeWrite | gateway/doctor.py:1475-1477 | Written tokens are read back whatever white space and comments stand around them; braces and semicolons need none, and the last comment no line break |
| NginxParser.ConfigurationRoundTrip | gateway/doctor.py:1475-1501 | ... hence a configuration is recovered from its text |
| NginxParser.WalkFindsNested | gateway/doctor.py:1545-1551 | The walk yields exactly the blocks nested at any depth |
| NginxParser.MatchLocation | gateway/doctor.py:1554-1579 | An exact location; else the first longest prefix if it is ^~; else the first matching regex; else that prefix; none exactly if nothing matches |

## Left out

- GatewayPins.PinSafety: says nothing about forced unloads, a detected crash, `unload_all_models` and gateway shutdown, which end pinned requests; `unload_all_models` unloads every current manager (gateway/model_manager.py:799) and is modelled as one uninterruptible step for each of them, without its quarantine and drain.
- GatewayBudget.BudgetIffRestartsFit: a fixed registry; an edit that enlarges a size may exceed the budget by itself.
- GatewayTheorems.AllocatorSafety: does not say that a free port has no live process; when that holds is GatewayOrphans.PortsCleanIff.
- NodeTheorems.PortsOutliveProcesses: excepts the instances whose kill a deadline abandoned, for which it is false; a kill that is not interrupted is taken to be effective, and handlers are not cancelled.
- BootstrapLease.FailClosed: one target model; the other entries are an opaque rest that is compared as a whole, and leases of other models are not modelled.
- GatewayLease.RolledBackStaysUnloaded: the local manager; in cluster mode another manager answers, which is not part of this model. The registry is edited only when the source allows it, outside an open activation or rollback.
- Applier.OutcomeLeavesNothingProvisional: the writer of models.yaml is assumed to write, to find the entry disabled, or to fail, and never to write in a simulation.
- Applier.EnabledOnDiskIsProved: is about what the run itself writes, not about edits by others; a second cancellation, while the first one waits for the thread of a writer, is not modelled.
- Migrations.NewerDatabaseUntouched: is about the schema version and content; the session pragmas, the switch to write-ahead logging among them, are set before the version is read (gateway/database.py:451).
- Migrations.Database.Migrate: the method sees what other processes commit between its transactions; their steps inside one are in the step system only.
- Attestation.FlightIsSound: a file identity (device, inode, size, mtime) that is the same at two instants is assumed to mean the same content in between; SHA-256 is a function of the bytes, no collision argument.
- RegistryEntries.ParseIsReading: reads every integer as a real; an integer size too large for a float makes the source raise OverflowError, where the model parses it.
- RegistryEntries.RoundTrip: sizes and probabilities are reals, paths are normalised by an uninterpreted function assumed idempotent on accepted paths; infinity and NaN are one non-finite size.
- RegistryPlan.ModelRegistry.Save: the text of models.yaml is a list of entries; line-level retouching, comments, backups and the atomic file replacement are one event that succeeds or fails.
- NginxParser.TokenizeWrite: comments and white space as the source strips them; quoted strings, which the source does not treat either, are not modelled. Regular expressions of locations are an uninterpreted predicate.
- Suspended coroutines of the gateway and of the node agent are step systems on values; their bookkeeping methods are classes. Aliasing between tasks is therefore by handle, not by reference.
- Node-agent shutdown, cancelled HTTP handlers, generated operation identifiers (an identifier is a parameter) and the measurement monitor.
- `parse_nginx_servers`, directive flattening and time parsing in gateway/doctor.py: reporting over the parsed tree.
- Orphan processes on a port, the legacy memory probe, metrics, log messages, HTTP codes and error wording.
- Rate limiting, usage accounting, secrets, redaction, dashboards, the CLI and the cluster scheduler: straight-line or single-structure code.
