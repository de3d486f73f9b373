# Ferrex, modelled and proved

Ferrex is a memory server for MCP clients: a stdio proxy per client, one shared daemon per
configuration, a SQLite database and a vector store. This project models its concurrent and
crash-prone protocols as state machines whose steps are what happens between two awaits, models
the objects that take those steps as classes proved against the same functions, and proves what
the protocols promise over all runs. `dafny verify dfyconfig.toml` checks everything.

| modules | what they model |
|---|---|
| `Track`, `Proxy`, `ProxyLoop` | the JSON-RPC tracker, the proxy's reconnect machine with its pump and its daemon, and the proxy object |
| `ProxyInvariant`, `ProxySteps`, `ProxyLayer1`-`3`, `ProxyTheorems` | the machine's invariant in layers, and what follows from it |
| `ProxyReplays`, `ProxyReplies` | what a replay sends again, and what the daemons' replies decide |
| `Budget` | the pump that waits for stdout budget and can be aborted at any await |
| `SpawnLock` | proxies and daemons that share a socket path, a PID file and a spawn lock |
| `IdleTimer`, `IdleExit` | the idle deadline, and an idle exit that races with arriving connections |
| `Journal`, `JournalRuns`, `JournalTheorems` | the journalled write to two stores, its recovery and audit, with crashes anywhere |
| `Cache`, `CacheRuns` | the LRU result cache with generations, under interleaved recalls and writers |
| `Text` | trimming, lower-casing (with the final sigma) and the normal form of names, for any Unicode tables |
| `Supersession` | conflict classification, supersession and the validity filter |
| `Entities`, `Predicates`, `Contradictions`, `Restarts` | entity resolution, predicate normalisation, contradiction detection, the restart budget |

In a machine, nondeterminism (which task runs, what fails, the order of a hash map, clock
readings, similarity scores, what a search finds) is carried by the events or by a parameter.
Fields and variables called history are read by no step.

## What is assumed

- A daemon connection answers a request it received at most once, with exactly one of result and
  error (section 5 of the JSON-RPC 2.0 Specification); a client does not reuse an outstanding id.
- A live listener refuses a connection only once it holds its PID lock; killing a child is one
  step; the holder of the spawn lock releases it. `EarlyRefusalUnlinks` shows what the first of
  these is for.
- Operation and memory ids are never used twice. Recovery and audit have the stores to themselves.
- Cache keys do not collide, and a search in a namespace finds only that namespace's memories.
- The similarity of a string that is not empty to the empty one is at most the fuzzy threshold
  (`NormalizeIsIdempotentIff` only).
- Of the Unicode tables, only what `Text.Sane` says: white space is no letter, ignored in no word
  and its own lower case; nothing else has white space in its lower case; and a lower case is its
  own lower case.

## Where the code does less than one would expect

Each of these is a theorem with the exact condition, and has a run or a configuration that shows it:

- The replayed handshake can hold an `initialize` that the client was told to retry
  (`ErroredInitializeIsReplayed`, with a daemon that answers a later request before `initialize`):
  if and only if, at some earlier loss of the run, it was in flight and was not the kept request
  (`ResentWasAnsweredIff`). No other request that was answered with the proxy's own error is sent
  again (`ResentPrefix`, `LinesGoOutInOrder`).
- Of two `notifications/initialized` from before a replay only the later one is delivered
  (`FirstInitializedIsDropped`), and one from during a replay that fails is delivered twice
  (`InitializedIsSentTwice`); `InitializedIsDelivered` says how often each is.
- The daemon's bytes queued for stdout can exceed the budget, through a line that a loss drains, a
  reply to `initialize` that is forwarded, or a pumped line behind one of those
  (`DrainExceedsBudget`, `ForwardExceedsBudget`, `PutAfterDrainExceedsBudget`): over a run they stay
  within it if and only if each line finds room when it is queued (`RunStaysWithinIff`).
- An idle exit leaves a connection behind if and only if its drain took nothing and either an error
  cut the drain short or a client connected after it (`ExitLeavesConnectionsIff`,
  `ShortDrainLosesConnection`, `LateArrivalIsLost`).
- After a completed recovery the stores disagree on a memory if and only if its operation stopped
  between its vector call and the mark and one of them still holds it (`RecoveryIsConsistent`);
  recovery cannot tell, for a store or for a forget (`TornStoreDisagrees`, `TornForgetDisagrees`).
- An automatic conflict update of a fact in another namespace leaves the old fact cached there
  (`ConflictElsewhereStaysCached`); in its own namespace it never does (`RecallIsFresh`).
- Two rows of a supersession chain pass for one instant, though never none, if and only if the clock
  goes back over an instant after the first row (`ChainTilesTime`, `TwoRowsPass`).
- Two live rows get one key if and only if an explicit target is not the key's live row
  (`OneLivePerKey`, `TwoLiveRows`).
- Normalising a predicate twice differs from once if and only if a group keeps a member and not its
  own name (`NormalizeIsIdempotentIff`, `ClashIsNotIdempotent`).
- Two facts with one subject, one predicate and different objects are missed if and only if a
  predicate is absent, or one fact has a predicate that is not lower-case as normalised and the
  other has it as raw (`EqualPredicatesAreMissedIff`, `CapitalsAreMissed`).

## Model

| member | source | states |
|---|---|---|
| `Track.Tracker.ClientLineSeen` | crates/server/src/proxy/track.rs:126-163 | what a client line does to the whole tracker and how it is classified |
| `Track.Tracker.DaemonLineSeen` | crates/server/src/proxy/track.rs:165-188 | a response clears its request, a successful lifecycle one initialises, an error frees the kept slot |
| `Track.Tracker.PutLink` | crates/server/src/proxy/track.rs:201-205 | a new link state has no replay under way |
| `Track.Tracker.MarkReplayStarted` | crates/server/src/proxy/track.rs:207-210 | only that flag changes |
| `Track.Tracker.TakeInFlight` | crates/server/src/proxy/track.rs:212-222 | drains exactly the ids in flight but the kept one, each once, in any order |
| `ProxyLoop.ProxyObject.SendErrors` | crates/server/src/proxy/reconnect.rs:138-143 | one error per id, in order |
| `ProxyLoop.ProxyObject.AnswerBut` | crates/server/src/proxy/reconnect.rs:115-143 | is the machine's answer of all in flight but one |
| `ProxyLoop.ProxyObject.KeptNow` | crates/server/src/proxy/track.rs:250-254 | the kept request if it is still in flight |
| `ProxyLoop.ProxyObject.OnLoss` | crates/server/src/proxy.rs:275-314 | is the machine's loss step, field by field, and goes where it goes |
| `ProxyLoop.ProxyObject.TakeLoss` | crates/server/src/proxy.rs:275-293 | the held line goes out, the queue is cleared, the attempts carried are counted |
| `ProxyLoop.ProxyObject.AnswerLoss` | crates/server/src/proxy.rs:294-314 | waits, exits or reconnects as the machine does |
| `ProxyLoop.ProxyObject.OnRoundFailed` | crates/server/src/proxy.rs:369-377 | exits before initialisation, else answers all with errors |
| `ProxyLoop.ProxyObject.TakeLine` | crates/server/src/proxy.rs:322-333 | a request and nothing else starts a round |
| `ProxyLoop.ProxyObject.AwaitRequest` | crates/server/src/proxy.rs:317-335 | reads up to the first request and is a run of the machine |
| `ProxyLoop.RunRound` | crates/server/src/daemon/spawn.rs:403-446 | connects at the first attempt that does, gives up at one that is final or at the third; the attempts that fail are a run of the machine |
| `ProxySteps.DeliverConserves` | crates/server/src/proxy/track.rs:165-188 | a delivered line adds the one answer that it takes out of flight |
| `ProxySteps.FailConserves` | crates/server/src/proxy/reconnect.rs:132-143 | each request drained gets one error, and the balance of requests and answers is kept |
| `ProxySteps.TrackConserves` | crates/server/src/proxy/track.rs:126-163 | a new request adds one request in flight |
| `ProxyLayer1.StepKeeps1` | crates/server/src/proxy.rs:180-458 | every step keeps every request answered once or in flight |
| `ProxyLayer2.StepKeeps2` | crates/server/src/proxy/reconnect.rs:145-231 | every step keeps what a round re-sends and how often |
| `ProxyLayer3.StepKeeps3` | crates/server/src/proxy.rs:225-250 | every step keeps the order of what is sent |
| `ProxyLayer3.RunKeeps` | crates/server/src/proxy.rs:180-200 | the whole invariant holds over all runs |
| `ProxyTheorems.AnswersAreConserved` | crates/server/src/proxy.rs:275-377 | requests taken are the answers on stdout plus those in flight; none is left in `Disconnected` |
| `ProxyTheorems.ResendsAreBounded` | crates/server/src/proxy/reconnect.rs:41-65 | a kept request is re-sent at most three times over all losses, and each round starts with fewer used |
| `ProxyTheorems.CarriedAttemptsGrow` | crates/server/src/proxy.rs:285-311 | a loss while it is pending spends one more attempt, or exits |
| `ProxyTheorems.LinesGoOutInOrder` | crates/server/src/proxy.rs:225-250 | after the prefix, client lines in the client's order, none missing or twice, all newer than any request answered with an error |
| `ProxyTheorems.ResentPrefix` | crates/server/src/proxy/reconnect.rs:145-231 | on a connection that is up, and during each attempt: nothing, one unanswered request, or the handshake as far as it was sent |
| `ProxyTheorems.InitializedIsDelivered` | crates/server/src/proxy/reconnect.rs:183-212 | how often each notification is sent by the replay, and by the queue |
| `ProxyTheorems.InitializedIsNotLost` | crates/server/src/proxy/track.rs:135-145 | exactly once from before the replay unless replaced, once or twice from after it |
| `ProxyTheorems.LossErrorsInitialize` | crates/server/src/proxy.rs:275-314 | exactly when one loss answers the cached `initialize` with an error |
| `ProxyTheorems.ErroredInitializeIsReplayed` | crates/server/src/proxy/reconnect.rs:183-199 | a run in which such a request is sent again |
| `ProxyReplays.RoundSpares` | crates/server/src/proxy.rs:369-377 | a round that fails never answers the cached `initialize` of an initialised session |
| `ProxyReplays.ResentWasAnsweredIff` | crates/server/src/proxy/reconnect.rs:115-199 | over all runs, what a connection is first sent again was answered with an error exactly if an earlier loss had it in flight and not kept |
| `ProxyReplays.InitializedIsSentTwice` | crates/server/src/proxy/track.rs:197-210 | a run that delivers a notification from during a failed replay twice |
| `ProxyReplays.FirstInitializedIsDropped` | crates/server/src/proxy/track.rs:135-145 | a run that delivers the first of two notifications from before a replay never |
| `ProxyReplies.OnlyAcceptedSessionsGoOn` | crates/server/src/proxy/reconnect.rs:145-231 | over all runs, a connection that came by a replay has read a result and no error for the request it was first sent, and one that came by a forwarded request has put its answer on stdout |
| `ProxyReplies.ReplayReplies` | crates/server/src/proxy/reconnect.rs:200-211 | of each line that a replay reads: a refusal spends the attempt, the third ends the round with errors; an acceptance goes on with the cached notification; others are passed over |
| `ProxyReplies.WhatIsReadIsDelivered` | crates/server/src/proxy.rs:398-434 | over all runs, what the pump reads and a round forwards is put on stdout once and in order, but for the line held |
| `ProxyReplies.InitialisedIff` | crates/server/src/proxy/track.rs:165-188 | over all runs, a session is initialised exactly if a result for a request that is no ping and no discovery has been delivered |
| `ProxyReplies.LinkIs` | crates/server/src/proxy.rs:203-333 | over all runs, which state of the link the tracker is told, by whether a connection is up, wanted or lost |
| `ProxyReplies.WhatRoundsAreFor` | crates/server/src/proxy.rs:294-333 | over all runs, whether a round replays the handshake, forwards a kept `initialize`, re-sends another kept request, or just connects |
| `ProxyReplies.ExitReasons` | crates/server/src/proxy.rs:275-377 | exactly which steps end the proxy, in success and in failure |
| `Budget.StdoutBudget.Hold` | crates/server/src/proxy/budget.rs:41-56 | holds the line, and takes its cost exactly if it is free |
| `Budget.StdoutBudget.TakeHeld` | crates/server/src/proxy/budget.rs:57-62 | hands the held line over once |
| `Budget.LinesAreDeliveredOnce` | crates/server/src/proxy.rs:398-434 | whatever is aborted, all lines read are put on stdout once and in order |
| `Budget.StdoutGetsAll` | crates/server/src/proxy.rs:398-434 | said by the events of a run: every daemon line and every answer of the proxy gets to stdout, once and in order |
| `Budget.PumpsWhilePlugged` | crates/server/src/proxy.rs:398-434 | the pump runs exactly from a connect to the end or the loss of that connection |
| `Budget.PumpedBytesAreBounded` | crates/server/src/proxy/budget.rs:41-54 | pumped bytes are within the budget or one line has all of it; permits are never lost |
| `Budget.MeteredStaysWithin` | crates/server/src/proxy/budget.rs:8-9 | all daemon bytes are, while nothing unmetered is queued |
| `Budget.DaemonBytesAreBounded` | crates/server/src/proxy/budget.rs:41-54 | over all runs, at most the budget and what was queued without a permit, or one line over the budget alone among those pumped |
| `Budget.QueueingKeepsWithinIff` | crates/server/src/proxy.rs:275-283 | a put, a drain or a forwarded reply keeps the budget exactly if its line finds room, or no other daemon line is queued |
| `Budget.ParksIffFull` | crates/server/src/proxy/budget.rs:41-56 | over all runs, a line waits exactly if the credits queued leave too little for it |
| `Budget.ParkedPumpGoesOn` | crates/server/src/proxy/budget.rs:41-56 | it can go on exactly when they leave enough, and so once nothing metered is queued |
| `Budget.RunStaysWithinIff` | crates/server/src/proxy.rs:398-434 | of every run: the budget is kept all along exactly if each line queued finds room |
| `Budget.DrainExceedsBudget` | crates/server/src/proxy.rs:275-283 | a run in which a drained line exceeds the budget |
| `Budget.ForwardExceedsBudget` | crates/server/src/proxy.rs:348-351 | a run in which a forwarded reply does |
| `Budget.PutAfterDrainExceedsBudget` | crates/server/src/proxy.rs:418-426 | a run in which the pump does, behind a drained line |
| `SpawnLock.StepKeeps` | crates/server/src/daemon/spawn.rs:167-333 | every step of any proxy or daemon keeps the invariant of path, PID file and lock |
| `SpawnLock.AtMostOneAccepts` | crates/server/src/daemon.rs:152-209 | at most one daemon can be reached, and the path leads to it |
| `SpawnLock.PathsOfServingDaemonStay` | crates/server/src/daemon.rs:365-372 | no step takes socket or PID file from a daemon that serves |
| `SpawnLock.OnlyItselfWithdraws` | crates/server/src/daemon.rs:172-178 | before it serves, only its own failure takes its socket away |
| `SpawnLock.NoLateBind` | crates/server/src/daemon/spawn.rs:295-333 | only the child of the proxy that holds the lock can still bind |
| `SpawnLock.UnlockedExitIsWaitedFor` | crates/server/src/daemon.rs:297-306 | while a daemon that left without the lock shuts down, nobody takes its paths and no other can be reached |
| `SpawnLock.HoldsTillItEnds` | crates/server/src/daemon.rs:152-209 | over all runs, a daemon listens from its bind on a free path till it leaves or dies, and holds its PID lock till it dies |
| `SpawnLock.CleanExitLeavesNoPaths` | crates/server/src/daemon.rs:365-372 | a daemon that leaves under the lock has taken both its paths away when it gives the lock back |
| `SpawnLock.GivesUpIffAlive` | crates/server/src/daemon/spawn.rs:178-193 | over all runs, a refused proxy gives up exactly if the daemon that the PID file names is alive with its lock |
| `SpawnLock.NewDaemonCanServe` | crates/server/src/daemon/spawn.rs:167-210 | whatever dead daemons left, when none is alive every proxy can get a fresh child to serve, by steps of the two alone |
| `SpawnLock.LockCanBeFreed` | crates/server/src/daemon/spawn.rs:295-333 | from every reachable state, the holder of the spawn lock can give it back by steps of its own |
| `SpawnLock.FailedPidFileWithdraws` | crates/server/src/daemon.rs:171-178 | a daemon that cannot write its PID file takes its socket away |
| `SpawnLock.BoundBeforePidLock` | crates/server/src/daemon.rs:163-172 | a run to a daemon that is bound, not PID-locked, and met by a second proxy |
| `SpawnLock.EarlyRefusalUnlinks` | crates/server/src/daemon/spawn.rs:178-193 | what a refusal by it would lead to |
| `SpawnLock.SpawnGuard.Disarm` | crates/server/src/daemon/spawn.rs:307-312 | releases the lock and spares the child |
| `SpawnLock.SpawnGuard.Drop` | crates/server/src/daemon/spawn.rs:323-333 | kills the child, then releases the lock, each at most once |
| `SpawnLock.WaitForAccept` | crates/server/src/daemon/spawn.rs:258-294 | the first turn that ends the wait decides; the child lives only if it accepted |
| `IdleTimer.Timer.OnAccepted` | crates/server/src/daemon/idle.rs:88-93 | an accept disarms the deadline and remembers it |
| `IdleTimer.Timer.OnEvent` | crates/server/src/daemon/idle.rs:95-100 | a passed hello forgets it; the counters follow |
| `IdleTimer.Timer.Rearm` | crates/server/src/daemon/idle.rs:103-111 | arms with what was remembered, or afresh |
| `IdleTimer.TimerRefines` | crates/server/src/daemon/idle.rs:84-116 | over all runs the two fields show one countdown with explicit fresh starts |
| `IdleTimer.DeadlineAfterUpdate` | crates/server/src/daemon/idle.rs:103-111 | set exactly when init has succeeded and nobody is in hello or active, and then the last fresh start plus the timeout |
| `IdleTimer.FailedHellosKeepTheDeadline` | crates/server/src/daemon/idle.rs:48-58 | after any run, any accepts and failed hellos, however they overlap, leave the deadline as it was at the next update that finds nobody connected |
| `IdleTimer.Do` | crates/server/src/daemon/idle.rs:84-116 | the timer's methods are the steps of those runs |
| `IdleExit.PhaseGuard.Drop` | crates/server/src/daemon/session.rs:70-78 | what a connection has reported in all is fixed by the phase it got to |
| `IdleExit.ServeConnection` | crates/server/src/daemon/session.rs:80-118 | a session that ends early reports a failed hello, any other a passed hello and an end |
| `IdleExit.CountersAreExact` | crates/server/src/daemon/idle.rs:19-46 | the counters are the connections whose hello or end is not yet processed; none goes below zero |
| `IdleExit.ArmedExactlyWhenIdle` | crates/server/src/daemon/idle.rs:103-111 | over all runs, the deadline is set exactly if init has succeeded and every connection has ended and is counted out |
| `IdleExit.NoConnectionIsDropped` | crates/server/src/daemon.rs:297-361 | over all runs, each that connected waits, was accepted, or was drained and could not be adopted |
| `IdleExit.OnlyADecisionStops` | crates/server/src/daemon.rs:297-336 | an idle exit stops only by a decision after an empty drain, drains only under the lock, and asks for it only when due |
| `IdleExit.BusyLockPostpones` | crates/server/src/daemon.rs:307-311 | one that finds the lock busy goes on serving all it has, and is due again a full timeout later |
| `IdleExit.IdleExitIsSafe` | crates/server/src/daemon.rs:297-336 | an exit goes ahead exactly if the drain took nothing, and then all have ended; else what can be adopted is |
| `IdleExit.ExitLeavesConnectionsIff` | crates/server/src/daemon.rs:297-361 | over all runs, whatever happens between drain and decision: exactly when an exit leaves a connection behind |
| `IdleExit.ShortDrainLosesConnection` | crates/server/src/daemon.rs:340-361 | a run in which a failed accept does it |
| `IdleExit.LateArrivalIsLost` | crates/server/src/daemon.rs:315-325 | a run in which a client that connects after the drain is left behind |
| `Journal.Stores.Write` | crates/core/src/pipeline/write.rs:54-93 | both stores have the memory, exactly the rows it names are retired by it, the journal is as before |
| `Journal.Stores.ForgetIds` | crates/core/src/service/forget.rs:24-57 | what is left of the stores, and which ids are reported deleted or not found |
| `Journal.ForgetAllRemoves` | crates/core/src/service/forget.rs:24-57 | exactly the given ids are gone from both stores; an id given twice is found once |
| `Journal.Stores.RecoverEntry` | crates/core/src/service.rs:190-224 | one entry: cleared, compensated or rolled forward |
| `Journal.Stores.RecoverOnStartup` | crates/core/src/service.rs:185-226 | clears the journal, entry by entry in some order, and reports the number of each kind |
| `Journal.Stores.AuditFix` | crates/core/src/service/admin.rs:16-49 | refuses over the limit, else removes what has no row, and reports both differences |
| `Journal.Stores.Commit` | crates/store/src/metadata.rs:1431-1457 | row, retirements and completion in one transaction; no row it does not name changes |
| `Journal.Stores.Finish` | crates/store/src/metadata.rs:587-605 | completion and the journal entry go together |
| `JournalRuns.StepKeeps` | crates/core/src/pipeline/write.rs:54-93 | every call, stop, crash and recovery call keeps the invariant of both stores and the journal |
| `JournalTheorems.RecoveryIsConsistent` | crates/core/src/service.rs:185-226 | after any run with any crashes, a completed recovery leaves no entry, and the stores disagree on exactly the torn ids that one of them still holds |
| `JournalTheorems.NothingIsUndone` | crates/store/src/metadata.rs:1431-1457 | a committed store stays until a forget is asked for, a completed forget stays, only commits retire |
| `JournalTheorems.RetiredByTheLastThatNamesIt` | crates/store/src/metadata.rs:1431-1457 | at every point of every run with any crashes, a row is retired by the last committed write that names it, and by none if none does |
| `JournalTheorems.AuditAfterRecovery` | crates/core/src/service/admin.rs:16-49 | a fix leaves vectors that all have rows, and touches and reports only torn ids |
| `JournalRuns.StepKeepsTorn` | crates/core/src/pipeline/write.rs:54-93 | a torn memory has no vector if it was stored, and is never stored if it was not |
| `JournalTheorems.TornStoreDisagrees` | crates/core/src/service.rs:197-200 | from every state, a store torn by a crash stays apart under every recovery |
| `JournalTheorems.TornForgetDisagrees` | crates/core/src/service.rs:197-200 | so does a torn forget, if no other forget of the memory is marked |
| `JournalTheorems.RecoveryCompletes` | crates/core/src/service.rs:185-226 | from every crash some recovery runs to its end |
| `JournalTheorems.WriteRuns` | crates/core/src/pipeline/write.rs:54-93 | a write left alone does in the machine what it does as code, its retirements included |
| `JournalTheorems.ForgetRuns` | crates/core/src/service/forget.rs:27-57 | a forget left alone does in the machine what it does as code |
| `JournalTheorems.RecoveryRuns` | crates/core/src/service.rs:185-226 | a recovery left alone does in the machine what it does as code |
| `Cache.PutIs` | crates/core/src/cache.rs:136-149 | a put drops nothing but the oldest slot of a full cache |
| `Cache.CacheHoldsLatestPuts` | crates/core/src/cache.rs:114-149 | the cache holds the most recently put keys, as many as fit: reads do not count |
| `Cache.RecallCache.GetResults` | crates/core/src/cache.rs:114-132 | a hit needs the current generation; the counters say which it was |
| `Cache.RecallCache.PutResults` | crates/core/src/cache.rs:136-149 | the entry carries the generation given |
| `Cache.RecallCache.BumpGeneration` | crates/core/src/cache.rs:160-164 | one namespace's generation moves on by one |
| `CacheRuns.WriteKeeps` | crates/core/src/service/forget.rs:52-60 | every writer's step keeps what cached and running recalls rest on |
| `CacheRuns.RecallKeeps` | crates/core/src/service/recall.rs:70-117 | every step of a recall keeps what cached and other running recalls rest on |
| `CacheRuns.RecallIsFresh` | crates/core/src/service/recall.rs:70-75 | a recall never returns what an acknowledged forget, or a write in its namespace, had removed before it began |
| `CacheRuns.HitsAreCurrent` | crates/core/src/cache.rs:114-132 | a hit is what the rows say, but for writers that have not bumped since |
| `CacheRuns.GenerationCountsBumps` | crates/core/src/cache.rs:160-164 | over all runs, a generation moves on by the bumps of its namespace and by no other step |
| `CacheRuns.HitsIffCurrent` | crates/core/src/cache.rs:114-132 | a recall hits exactly if its key is cached under the generation of the moment of the look-up |
| `CacheRuns.ConflictElsewhereStaysCached` | crates/core/src/service/store.rs:57-69 | a recall after a write in another namespace returns the fact it superseded, whenever the cache holds it |
| `CacheRuns.FactIsCached` | crates/core/src/service/recall.rs:213-215 | one store and one recall reach a state in which the cache holds a fact |
| `Text.LowerTrimCommute` | crates/core/src/pipeline/conflict.rs:56-57 | a subject is looked up as it is stored |
| `Text.NormalizeIsIdempotent` | crates/core/src/predicate.rs:49-56 | a normal form is its own normal form |
| `Text.NormalFormIsPlain` | crates/core/src/entity.rs:152-159 | a normal form is made of lower-case words without separators |
| `Text.NormalizeIsTokens` | crates/core/src/predicate.rs:49-56 | a normal form is the words of the lower case, as an independent scan finds them, with one space between |
| `Supersession.PlanIs` | crates/core/src/service/store.rs:81-107 | a write retires at most one row, and that was valid |
| `Supersession.ConflictOutcome` | crates/core/src/pipeline/conflict.rs:19-87 | what becomes of a semantic store by the live rows of its key: written, refused as a duplicate, replacing, ambiguous, or refused for many |
| `Supersession.TargetOutcome` | crates/core/src/service/store.rs:81-107 | what becomes of a store that names a target: three refusals, or that row and no other is retired |
| `Supersession.OtherOutcome` | crates/core/src/pipeline/dedup.rs:9-50 | another store is refused exactly if it is a near duplicate, and retires nothing; a forget removes its row and no other |
| `Supersession.KeepsOneLiveIff` | crates/core/src/pipeline/conflict.rs:48-87 | one store keeps one live row per key exactly if an explicit target is the live row of the key |
| `Supersession.OneLivePerKey` | crates/store/src/metadata.rs:915-931 | one live row per key all along a run from empty, exactly if all explicit targets are the live row of their key |
| `Supersession.TwoLiveRows` | crates/core/src/service/store.rs:81-107 | a run with a target of another key that leaves two |
| `Supersession.OneSuccessor` | crates/store/src/metadata.rs:577-585 | the write that retired a row is never replaced by another |
| `Supersession.RunIsLinked` | crates/core/src/pipeline/write.rs:83-93 | each row is invalid from its successor's creation on, and no write retires two rows |
| `Supersession.OnePassesAt` | crates/core/src/service/recall.rs:99-117 | at an instant exactly one row of a chain passes, unless the chain goes back over it |
| `Supersession.ChainTilesTime` | crates/core/src/service/recall.rs:103-115 | exactly one row of a chain passes at all instants from the first row on, if and only if the clock goes forward; never none |
| `Supersession.TwoRowsPass` | crates/core/src/service/recall.rs:103-115 | a run with a clock that goes back, and an instant at which two rows pass |
| `Supersession.LastOfChainIsCurrent` | crates/core/src/service/recall.rs:103-107 | without an instant, only the last row passes |
| `Supersession.PassesIff` | crates/core/src/service/recall.rs:99-117 | over all runs, which rows pass at an instant or now, with and without the invalidated ones, said by when they and their successors were stored |
| `Entities.NamesAreAFunction` | crates/core/src/entity.rs:20-111 | names with one normal form resolve to one entity, whatever the scores |
| `Entities.OwnerIsStable` | crates/core/src/entity.rs:60-62 | a name that has an owner resolves to it ever after |
| `Entities.NamesStayUnique` | crates/store/src/metadata.rs:698-814 | each name belongs to at most one entity, and to the one it resolved to |
| `Entities.BestIs` | crates/core/src/entity.rs:161-174 | the best match is the last of the best above the threshold |
| `Entities.CandidatesAre` | crates/core/src/entity.rs:161-170 | the candidates are exactly the names and aliases of all entities |
| `Entities.FuzzyMatchIs` | crates/core/src/entity.rs:161-174 | an entity is matched exactly if some name is above the threshold, and then it has a best one |
| `Entities.Resolver.GetByName` | crates/store/src/metadata.rs:729-773 | finds the owner, by name or alias, if there is one |
| `Entities.Resolver.ResolveSingle` | crates/core/src/entity.rs:37-62 | is the resolution of the machine, by exact name, similar name, embedding, or new |
| `Entities.Resolver.Resolve` | crates/core/src/entity.rs:20-35 | each name goes to its owner, or where an equal one went before it, or else to the most similar, the nearest or a new one among what was loaded and what has been added since; no owner is lost |
| `Predicates.TablesAreDetermined` | crates/core/src/predicate.rs:19-47 | the tables do not depend on map order; the alphabetically first claim wins |
| `Predicates.NewNormalizer` | crates/core/src/predicate.rs:19-47 | builds those tables |
| `Predicates.BestOfIs` | crates/core/src/predicate.rs:66-72 | the first of the best synonyms above the threshold |
| `Predicates.CanonicalIs` | crates/core/src/predicate.rs:58-77 | a known text stands for its group, an unknown one for that of the best synonym above the threshold, or for itself |
| `Predicates.PredicateNormalizer.NormalizeInput` | crates/core/src/predicate.rs:58-77 | the loop finds that one |
| `Predicates.NormalizeIsIdempotentIff` | crates/core/src/predicate.rs:58-77 | idempotent exactly if every group that keeps a member keeps its own name |
| `Predicates.ClashIsNotIdempotent` | crates/core/src/predicate.rs:58-77 | a configuration of two groups that is not |
| `Contradictions.FindPairs` | crates/core/src/reflect.rs:84-113 | of a group, both of every two that contradict are matched; none is reported twice |
| `Contradictions.Detect` | crates/core/src/reflect.rs:21-72 | sound, no pair twice, fewer pairs than memories, and both of any two that contradict are in some pair |
| `Contradictions.NormalisedContradict` | crates/core/src/reflect.rs:9-72 | with normalised predicates: exactly if these are equal or alike |
| `Contradictions.RawContradict` | crates/core/src/reflect.rs:28-71 | without them: exactly if the raw ones are equal in lower case or alike as they are |
| `Contradictions.InPairsIsDetermined` | crates/core/src/reflect.rs:21-72 | which memories are in a pair does not depend on map order |
| `Contradictions.EqualPredicatesAreMissedIff` | crates/core/src/reflect.rs:28-66 | in any list, exactly when two opposed facts are left by each pass to the other |
| `Contradictions.PairedIff` | crates/core/src/reflect.rs:21-72 | a fact is in some pair exactly if it is opposed to another and not left so |
| `Contradictions.CapitalsAreMissed` | crates/core/src/reflect.rs:28-66 | two facts of that kind |
| `Restarts.RestartBudget.Available` | crates/store/src/sidecar.rs:213-223 | the pruned deque counts as the full history would |
| `Restarts.SpendKeepsSpacedIff` | crates/store/src/sidecar.rs:213-227 | a spend keeps any four in a row over a window apart exactly if it is available |
| `Restarts.SpendsStaySpaced` | crates/store/src/sidecar.rs:279-323 | over any turns of the loop, any four spends in a row span more than the window |
| `Restarts.Restart` | crates/store/src/sidecar.rs:279-323 | the loop spends and ends as counting over the full history says |

## Left out

- JSON parsing, batches and hello encoding: lines come as decoded envelopes, and an unparsable line has none.
- The `list_changed` notice after a reconnect to another key, and all texts of errors: they change no state modelled here.
- `StdoutBudget::stalled` and the exits of the writer thread: they only decide when a closing proxy gives up waiting.
- Lines that stdout still has queued when the proxy exits: an exit ends the run.
- Hello checks and init failure in a session: one step that passes or ends it.
- A proxy killed while it holds the spawn lock, a daemon started by hand, and reuse of process ids or inodes.
- Qdrant and SQLite as such: maps and sets, with one call one step; a call that fails after its effect is its effect and a stop.
- Journal entries of an unknown kind or with a memory id that is no UUID: recovery skips or clears these, and ids are numbers here.
- Hash collisions, and `as_of` or range instants outside the nanosecond range of the cache key.
- The scores of recall (recency, staleness, reranking): real exponentials; a recall may return any part of what passed the filter.
- `normalize_object` and Jaro-Winkler as computed: objects are compared in lower case, and the ratio comes with the store.
- Admin commands that rewrite normalised predicates: they can merge keys, so the one-live-row theorem ends where they run.
- The alias pass of contradiction detection: it does not update the matched set, so coverage and count end before it.
- The Unicode tables themselves: `Text` has any tables with the properties it states.
- CLI, logging, taxonomy, timeline, stats, configuration loading, schema migration and the access tracker.
