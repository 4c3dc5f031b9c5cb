# FluxGraph: a verified model of the execution kernel

This project models the part of FluxGraph that decides what an agent session does: the engine's run loop with
retries, routing, interrupts, persistence and hooks; the graph builder; the stores it writes to; and the smaller
state machines around it. It proves properties of whole sessions, of arbitrary interleavings and of arbitrary
event histories. `dafny verify dfyconfig.toml` checks all of it.

## How it is built

- **Nodes, routers, tools and people are arbitrary.** A node or router is a function of the number of questions
  put so far and the state it is given, so it may answer differently each time. The engine's behaviour over one
  such tape is a function (`Engine.dfy`); the theorems quantify over all of them.
- **The engine twice.** `EngineObject.dfy` has the engine as the object the source has, with fields it reassigns
  and a loop; every method is proved to do to the whole world what `Engine.dfy` says. The `Engine*.dfy` theorems
  are about the latter.
- **Failures are part of the model.** A panic of the loop and a snapshot that could not be marshalled are counted
  as `faults`. The session theorems hold with lost snapshots too and say exactly what those cost
  (`EngineBudget`, `EngineArtifacts`); `EngineExits.NoFaults` says when there are no faults at all, and
  `EngineLimits` shows what lost snapshots can do. `EnginePauses` compares runs over a store that takes every
  state.
- **Concurrency is interleaving.** Redis saves and prunes, message appends and tool dispatch are machines whose
  steps are single store commands or single goroutine actions, run in any order (`RedisCheckpoints`,
  `RedisMessages`, `Dispatch`). Mutex-protected objects (`CircuitBreaker`, the registry, the in-memory store) take
  one method call as one step; `InMemoryStore.AppendMessages` is two.
- **Parameters.** Time, jitter, cancellation, UUIDs (fresh values), JSON codecs and `%v` rendering are parameters.
  Where a result needs a codec or the rendering to be faithful, it asks so only of the values that occur.

## Where the code differs from what one might expect

- A Resume that is refused (router error, no successor off a Terminal) leaves the session Paused in the store.
- `Resume` continues at the successor of the paused node; a next-node override given with the pause is lost.
- The first retry delay is never capped, so the closed form of the back-off holds exactly for Base <= MaxDelay.
- With MaxAttempts below 1 the loop dereferences a nil result.
- The error of every save but that of an already finished state is dropped: at pauses, failures and completions.
  A session whose snapshot is lost still reports its exit, and each Resume then repeats the same steps.
- The checkpoint index orders by milliseconds, ties by the encoded metadata, which begins with the random ID; two
  saves within a millisecond may be listed, and pruned, against time.
- Tenant and session are joined by a colon, so tenants with colons can share a session's keys.
- When a node asks for a human the task store is told `failed`; the engine never reports its own pause or
  completion to the task store.
- `Revise` marks the first pending step as running, which is not the step it just appended.
- A half-open breaker admits every call, and a late success closes an open one.
- A tool message with several results sends only the last.

## Model

| member | source | states |
|---|---|---|
| `EnginePauses.PauseResumeTransparent` | engine/engine.go:92-119 | For every graph, node, router and sequence of injections: a session resumed while it is paused ends with the executions, posts, final state and latest snapshot of one uncut run whose nodes set the injected variables themselves; the only exception is a Resume refused with the error the uncut run fails with. `maxSteps - StepCount` resumes always suffice to end it. |
| `EnginePauses.Simulation` | engine/engine.go:146-275 | The same from any loop state: the cut and the uncut engine run in lockstep from there on. |
| `EnginePauses.AfterPause` | engine/engine.go:105-118 | From a pause on, Resume's routing and the uncut engine's routing of the same state lead to agreeing ends; a next-node override given with the pause is dropped by both. |
| `EnginePauses.DeadEndAfterPause` | engine/engine.go:105-116 | Where routing after a pause fails or finds nothing, Resume completes at a Terminal or is refused with the session still Paused, and the uncut engine completes or fails with that error. |
| `EnginePauses.RetryUnpaused` | engine/resilience.go:32-68 | A node that never pauses is attempted exactly as often as the node it is made from, under every retry and cancellation pattern. |
| `EngineRuns.CallEffect` | engine/engine.go:79-119 | What any one call does to the world: who executes, how often, what is stored, and that other sessions' snapshots stay as they were. |
| `EngineRuns.RunEffect` | engine/engine.go:146-275 | The same for one run of the loop from any state. |
| `EngineBudget.SessionBudget` | engine/engine.go:92-177 | For every store too: one Start and any Resumes, interleaved with calls on other sessions, execute at most `maxSteps - StepCount` nodes plus those of calls that stored no snapshot (plus what an older session of that ID had left, if not even Start stored one). If Start stored one the account is exact, and the step count shows every execution iff nothing was lost. |
| `EngineBudget.CallsBalance` | engine/engine.go:176-216 | The ledger behind it, kept by every call: latest StepCount + lost executions = initial StepCount + executions, and StepCount never passes the limit. |
| `EngineBudget.NothingLostIff` | engine/engine.go:92-119 | A session loses nothing exactly when each call on it loses nothing. |
| `EngineBudget.ResumeLosesIff` | engine/engine.go:92-119 | A Resume that returns a state loses nothing exactly when it executed nothing or that state can be marshalled; a refused one loses nothing. |
| `EngineBudget.StartKeeps` | engine/engine.go:79-89 | A Start that returns a state stores that very state exactly if it can be marshalled; otherwise the session's old snapshot stays. |
| `EngineBudget.SessionCallsBounded` | engine/engine.go:133-144 | Over a session, Process calls are at most MaxAttempts times its executions. |
| `EngineBudget.FaultFreeBudget` | engine/engine.go:153-177 | With nodes that never panic the loop, MaxAttempts >= 1 and a store that takes every state: at most `maxSteps - StepCount` executions and MaxAttempts times as many Process calls, however nodes tamper with StepCount. |
| `EngineLimits.LostSnapshotsBreakTheBudget` | engine/engine.go:237-249 | A concrete two-step engine whose second pause cannot be saved: n Resumes execute n + 1 nodes, for every n. |
| `EngineLimits.LostCompletionRepeats` | engine/engine.go:261-268 | A concrete engine whose last node leaves a variable that cannot be marshalled: every Resume returns Completed without error, the store shows Paused all along, and the node is executed once per Resume. |
| `Engine.TurnUsesOneStep` | engine/engine.go:148-177 | A loop turn that goes on used exactly one step below the limit, whatever StepCount the node reported; this is why every run halts. |
| `Engine.FirstEdgeIsFirst` | engine/engine.go:121-131 | Routing follows the first edge in insertion order that leaves the node, and finds none exactly when none leaves it. |
| `EngineTurns.TurnGoesWhere` | engine/engine.go:152-275 | Every turn, by the state it begins with and the node's answer: an interrupt parks in the reported state whatever successor is named; an override goes exactly to its first node and asks no router; otherwise control goes where the first edge leads, its router asked once about the reported state; no successor completes a Terminal and fails elsewhere; errors fail, park or panic; finished, spent and lost states end the run at once. |
| `EngineTurns.ReplyLogs` | engine/engine.go:171-235 | A reply is logged as one execution in one hook bracket; of a reported state with a task exactly the new artifacts are posted and its status told. |
| `EngineTurns.FailureLogs` | engine/engine.go:171-190 | An error is logged as one execution, closed by OnError with that error, and told as failed to the task of the state the node was given. |
| `EngineTurns.StartRunsOn` | engine/engine.go:79-89 | Start runs the loop on the given or a new state, set Running, at Entry unless it stands somewhere, and otherwise as given. |
| `EngineTurns.ResumeRunsOn` | engine/engine.go:92-119 | Resume routes, and runs the loop on, the saved state with every injected variable set, every other one as saved, Running and otherwise unchanged, at the paused node's successor; without one it completes that state at a Terminal and is refused elsewhere. |
| `EngineExits.StartContract` | engine/engine.go:79-89 | A fault-free Start ends Completed, Failed or Paused with the store's latest snapshot equal to the returned state. If nodes leave failing to the engine, and completing too unless every state can be marshalled, the error is nil iff the session is not Failed; and Completed means a Terminal at which a node's override was empty, or no edge leaves, or the first one leads to no node, or its router answered so about this state. |
| `EngineExits.ResumeContract` | engine/engine.go:92-119 | Resume of a session that is not Paused changes nothing; a refused Resume leaves every snapshot alone; any other one ends like Start, with the same meaning of the error and of Completed. |
| `EngineExits.NoFaults` | engine/engine.go:146-275 | Nodes without nil results or shrinking artifacts, at least one attempt, causes in human requests and a store that takes every state: no sequence of calls ever panics or loses a snapshot. |
| `EngineExits.NoAttemptsPanics` | engine/resilience.go:34-67 | With MaxAttempts below 1 every run that reaches a node panics there and saves nothing. |
| `EngineExits.VerdictFromNode` | engine/engine.go:133-144 | A reply, or a request for a human, that the loop sees was produced by the node itself; no verdict at all exactly when no attempt is permitted. |
| `Core.AsAgentFindsOutermost` | core/errors.go:26-35 | An agent error is found however deep it is wrapped, the outermost one, and none only if there is none. |
| `EngineArtifacts.ArtifactConservation` | engine/engine.go:191-204 | For append-only nodes, a task and a Start that stored a snapshot: over the Start and all Resumes the session posts as many artifacts as its latest snapshot holds beyond the initial ones plus those of calls that stored none; they are exactly those, in order, each once, iff none was lost. Retries, pauses, refused Resumes and other sessions add nothing. |
| `EngineArtifacts.RunConserves` | engine/engine.go:214-235 | Any run, even one that panics, posts exactly the artifacts gained by the work it comes to, which is what it returns and stores. |
| `EngineArtifacts.ResumeConserves` | engine/engine.go:92-119 | A Resume posts exactly what is gained beyond the paused snapshot. |
| `EngineArtifacts.FaultFreeConservation` | engine/engine.go:191-235 | Without panics and lost snapshots every artifact is posted exactly once, in order. |
| `EngineTasks.TaskStatusesFollowNodes` | engine/engine.go:183-232 | The task store is told `completed` or `input-required` only if some node itself reports such a status, never because a session completed or paused. |
| `EngineTasks.CallsWrite` | engine/engine.go:183-232 | Over any calls, at most one status per executed node is written, and each is `failed` or one a node reported. |
| `EngineTasks.TaskMirrorsExitIff` | engine/engine.go:183-232 | After any run that does not panic, of a session with a task that nodes keep, the task store's last status reads like the run's exit exactly when the last node it was told about failed without asking for a human, or reported a status that reads like the exit's. |
| `EngineTasks.OnlyNodeFailuresMirror` | engine/engine.go:183-232 | If nodes leave every status to the engine, that happens exactly when a node failed without asking for a human: completed and paused sessions never show in the task store. |
| `EngineTasks.LastReportIsLastNode` | engine/engine.go:217-232 | When every reply carries a state, the last node the task store was told about is the last one executed. |
| `Core.TaskStatesMean` | core/task.go:51-67 | A task state is input-required, completed or failed exactly for a waiting, a completed and a failed session. |
| `EngineTrace.RunBrackets` | engine/engine.go:172-212 | A run that does not panic, whatever snapshots it loses, reports every execution as BeforeNode(k) then AfterNode or OnError at k + 1 for the same node, the j-th bracket at StepCount + j. |
| `EngineTrace.LatencyMatchesExecutions` | engine/hooks.go:109-137 | A latency hook attached to any calls on any sessions, none of which panics, counts per node exactly its executions, keeps no start timestamp, and on a monotone clock has Min <= Avg <= Max. |
| `EngineRouting.BuiltGraphsNeverDerail` | engine/engine.go:164-169 | On a graph Build accepts, with router answers and overrides empty or registered, no state returned or stored by any call of the session stands at an unregistered node, whatever panics or is lost. |
| `EngineRouting.StaticSessionsStayReachable` | graph/builder.go:67-88 | With static edges only and no overrides, everything a session ever executes from Entry lies in the set the reachability pass marks. |
| `EngineRouting.SessionWithin` | engine/engine.go:250-274 | Any set of nodes closed under static edges, router answers and overrides is never left by a session started in it, whatever panics or is lost. |
| `EngineHistory.SessionChains` | engine/engine.go:92-119 | With nodes that only use the With* helpers, a session's checkpoints each extend the one before, whatever is lost or panics: messages and artifacts as prefixes, variable keys growing. |
| `EngineHistory.SessionDiffsPatch` | observability/inspector.go:71-103 | For any earlier and later checkpoint of such a session, patching the earlier with their diff gives the later one's messages, variables and artifacts exactly when no variable changed between them without changing how it renders. |
| `EngineObject.Engine.FireHooks` | engine/engine.go:64-76 | Every attached hook hears the event exactly once, whichever of the others panic, and every hook that had heard the whole trace still has. |
| `EngineObject.Engine.ResolveNextNode` | engine/engine.go:121-131 | The edge loop gives the first matching edge's answer and asks a router exactly once. |
| `EngineObject.Engine.ProcessNodeWithRetry` | engine/engine.go:133-144 | Runs the node under the retry policy: its verdict and its number of Process calls. |
| `EngineObject.Engine.ExecuteNode` | engine/engine.go:171-235 | One node execution with hooks and task store sync does to every log exactly what the model says, and nothing to the memory store; every hook hears all of it. |
| `EngineObject.Engine.React` | engine/engine.go:179-274 | What follows an execution (park, fail, complete or go on) is the model's decision, world and result. |
| `EngineObject.Engine.RunLoop` | engine/engine.go:146-276 | The imperative loop, on the whole world, equals the run that the session theorems are about; every hook hears the whole trace. |
| `EngineObject.Engine.Start` | engine/engine.go:79-89 | The object's Start equals the model's, world and result; every hook hears the whole trace. |
| `EngineObject.Engine.Resume` | engine/engine.go:92-119 | The object's Resume equals the model's, world and result; every hook hears the whole trace. |
| `Retry.Execute` | engine/resilience.go:32-68 | The loop's verdict, number of calls and sequence of sleeps are those of the specification, for every tape, cancellation and jitter. |
| `Retry.RunIsTheExplanation` | engine/resilience.go:32-68 | The outcome is the only one that explains the tape: all earlier attempts retriable and uncancelled, and the last one succeeded, was not retriable, was cancelled, or was the last permitted and then turns Fatal with its own node and cause. |
| `Retry.CallCount` | engine/resilience.go:34-48 | Uncancelled, the callable runs min(MaxAttempts, first non-retriable position) times, and exhaustion gives a Fatal error with the node and the cause of the last failure. |
| `Retry.BackoffClosedForm` | engine/resilience.go:33-65 | The i-th base delay is min(Base * Multiplier^i, MaxDelay) for every i exactly when Base <= MaxDelay; the first delay is never capped. |
| `Retry.TotalSleepBounded` | engine/resilience.go:50-66 | Total sleep is at most (MaxAttempts - 1) * MaxDelay for every jitter. |
| `Retry.JitterWindow` | engine/resilience.go:50-54 | Every wait is within 20 % of its base delay and never above the cap; the lowest draw reaches the lower end and the middle one waits the base delay itself. |
| `Retry.SleepsAt` | engine/resilience.go:50-54 | The i-th wait is the i-th base delay times 0.8 + 0.4 * the i-th draw, cut off at the cap. |
| `Breaker.CircuitBreaker.Allow` | engine/resilience.go:102-118 | Refuses exactly while Open and younger than openTimeout; the first call let through afterwards turns the breaker HalfOpen, and nothing else changes. |
| `Breaker.CircuitBreaker.RecordSuccess` | engine/resilience.go:120-126 | Closes the breaker from any state, clears the failure count and counts the success; nothing else changes. |
| `Breaker.CircuitBreaker.RecordFailure` | engine/resilience.go:128-138 | Opens now with the count cleared when probing or at the threshold, otherwise counts one more failure; successes are cleared either way. |
| `Breaker.StateIsItsTrace` | engine/resilience.go:102-138 | For every trace: phase, failure count and opening time read off the events since the last success or trip. |
| `Breaker.SuccessesSinceFailure` | engine/resilience.go:120-132 | The success count is the number of successes since the last failure. |
| `Breaker.FailuresBelowThreshold` | engine/resilience.go:128-138 | The failure count stays below the threshold in every reachable state exactly when the threshold is at least 1. |
| `Breaker.TripNeedsThresholdFailures` | engine/resilience.go:128-137 | A trip from Closed needs `threshold` failures with no success between them. |
| `Breaker.AllowIffTimedOut` | engine/resilience.go:102-117 | On a monotone clock a call passes iff no trip is outstanding or the last one is at least openTimeout old. |
| `Breaker.LateSuccessCloses` | engine/resilience.go:114-126 | HalfOpen admits any number of probes, and a late success closes an Open breaker. |
| `Graphs.Builder.AddNode` | graph/builder.go:32-39 | Registers a new node or rejects a known ID without any change. |
| `Graphs.Builder.SetTerminal` | graph/builder.go:45-49 | Adds exactly the given IDs. |
| `Graphs.Builder.CheckReachability` | graph/builder.go:67-96 | The worklist ends, marks exactly the nodes on static paths from Entry and warns about exactly the other registered ones. |
| `Graphs.Builder.Build` | graph/builder.go:99-145 | Succeeds iff entry, edges and terminals all name registered nodes and then returns that graph; otherwise the error names the first real defect in checking order. |
| `Graphs.ClosedContainsReachable` | graph/builder.go:67-88 | A set closed under static edges that holds Entry holds everything reachable, which makes the marking complete. |
| `Hooks.LatencyMetricHook.OnHook` | engine/hooks.go:109-130 | The five map entries of the node after one hook call, and no other node's entries changed. |
| `Hooks.FeedDescribes` | engine/hooks.go:109-130 | Fed a bracketed trace, the hook holds for every node the count, total, minimum and maximum of that node's brackets, and no start timestamp. |
| `Hooks.AvgWithinBounds` | engine/hooks.go:132-137 | Count*Min <= Total <= Count*Max, and the truncated average lies between Min and Max. |
| `Hooks.AvgTruncates` | engine/hooks.go:132-137 | The average times the count falls short of the total by less than the count, on the side of zero. |
| `Store.InMemoryStore.Save` | memory/store.go:36-57 | Stores the state, its checkpoint and its listing together, or nothing when the state cannot be marshalled. |
| `Store.InMemoryStore.AppendMessages` | memory/store.go:105-113 | Undisturbed, the latest state is the old one with the messages added after its own; the error cases change nothing. |
| `Store.PutKeeps` | memory/store.go:36-57 | A Save keeps every listed checkpoint loadable, in saving order and its own session's, with the latest state last, and leaves other sessions and older checkpoints alone. |
| `Store.HistoryGrows` | memory/store.go:36-103 | A Save appends exactly one state to its session's history and changes no other history. |
| `Store.AppendExtendsCurrentIff` | memory/store.go:105-113 | AppendMessages extends the session as it stands iff nobody changed the session between its load and its save. |
| `Store.OverlappingAppendsLoseOne` | memory/store.go:105-113 | Two overlapping appends lose the first one's messages. |
| `StateObject.Snapshot.constructor` | core/agent_state.go:36-43 | A new state is Running, empty and shares no storage. |
| `StateObject.Snapshot.Clone` | core/agent_state.go:88-111 | An equal state in entirely fresh storage; the receiver is untouched. |
| `StateObject.Snapshot.WithMessage` | core/agent_state.go:46-50 | A fresh state with the message appended; the receiver is untouched. |
| `StateObject.Snapshot.WithVariable` | core/agent_state.go:53-57 | A fresh state with the variable set; the receiver is untouched. |
| `StateObject.Snapshot.WithStatus` | core/agent_state.go:60-64 | A fresh state with the status set; the receiver is untouched. |
| `StateObject.Derive` | core/agent_state.go:46-111 | After a chain of With* calls every snapshot along it still shows its own version and no two share storage. |
| `Core.EditsChangeOneThing` | core/agent_state.go:46-64 | WithMessage appends that message, WithVariable sets that variable, WithStatus sets that status; each leaves everything else as it was. |
| `Inspector.DiffCheckpoints` | observability/inspector.go:71-103 | The loops compute the gained messages and artifacts and the variables that are new or render differently; nothing if a checkpoint is missing. |
| `Inspector.ReplayFrom` | observability/inspector.go:120-131 | The checkpoint's state set to Running, or nothing if it is missing. |
| `Inspector.PatchRestoresIff` | observability/inspector.go:71-103 | Patching A with Diff(A, B) gives B's contents exactly when B extends A and rendering tells the changed variables apart. |
| `Inspector.DiffsCompose` | observability/inspector.go:71-103 | Along a chain A, B, C the composed diff patches A to C where rendering tells the changes of each link apart; the direct diff does so exactly when it tells those from A to C apart. |
| `Inspector.DiffIsMinimal` | observability/inspector.go:82-100 | A diff lists no variable that renders alike in both checkpoints, and whatever patches A to B lists at least what the diff does, with the same values. |
| `Inspector.EditedExtends` | core/agent_state.go:46-64 | Any sequence of With* calls extends the state and keeps its artifacts. |
| `Redis.NegativeIndicesKeepLast` | storage/redis_store.go:146-150 | ZREMRANGEBYRANK 0 -k-1 and LTRIM -k -1 keep exactly the last k elements. |
| `Redis.InsertSorted` | storage/redis_store.go:131-133 | ZADD of a new member keeps the (score, member) order. |
| `Redis.AddedMoves` | storage/redis_store.go:131-133 | ZADD leaves one entry of its member, at the new score, and every entry of another member. |
| `Redis.LessIsLexicographic` | storage/redis_store.go:24-26 | Ties of the index are broken in lexicographic order of the members. |
| `RedisCheckpoints.StreamingTopK` | storage/redis_store.go:102-150 | For every interleaving of saves, each of their writes and their prunes, given that their metadata survives its encoding: the index's top maxCheckpoints entries by rank are the top ones of everything ever saved, and with no prune pending the index is exactly those. |
| `RedisCheckpoints.PruneIsExact` | storage/redis_store.go:146-150 | At any moment a prune leaves exactly the top maxCheckpoints of everything ever added. |
| `RedisCheckpoints.NoDanglingCheckpoints` | storage/redis_store.go:121-185 | With the three writes as separate steps, every indexed entry is at every step the metadata of a save under that key, and its ID loads what the encoding of the state saved under it decodes to. |
| `RedisCheckpoints.KeysApart` | storage/redis_store.go:77-87 | No tenant or session name makes a state key collide with a checkpoint's data key. |
| `RedisCheckpoints.SharedIndexIff` | storage/redis_store.go:81-83 | Two sessions share an index exactly when tenant and session, joined by a colon, read the same; tenants without a colon never do. |
| `RedisCheckpoints.InvAlways` | storage/redis_store.go:121-150 | The invariant of the interleaved machine holds after every sequence of steps of saves whose metadata survives its encoding. |
| `RedisMessages.SlidingWindow` | storage/redis_store.go:211-227 | With every RPUSH and LTRIM of any number of calls an interleaved step, the list is a suffix of the push order of length at least min(pushed, maxMessages) and is exactly the window once every call that pushed has trimmed; a call's messages appear in its order, all that could be encoded once it has returned. |
| `RedisMessages.TrimRestoresWindow` | storage/redis_store.go:225-227 | Right after any trim the list is exactly the last min(pushed, maxMessages) messages. |
| `RedisStore.DefaultsGiveWindows` | storage/redis_store.go:53-73 | The limits are at least 1, as the results above need, exactly for non-negative options. |
| `RedisStore.RedisMemoryStore.Save` | storage/redis_store.go:102-144 | The client afterwards: latest state, checkpoint data and one index entry under the save's millisecond, every other key as it was; nothing changes if the state cannot be marshalled. |
| `RedisStore.RedisMemoryStore.PruneCheckpoints` | storage/redis_store.go:146-150 | With a limit of at least 1 the session's index is its last maxCheckpoints entries; no other index changes. |
| `RedisStore.RedisMemoryStore.ListCheckpoints` | storage/redis_store.go:189-207 | The decodable members of the index, reversed in place. |
| `RedisStore.RedisMemoryStore.AppendMessages` | storage/redis_store.go:211-227 | Undisturbed, and with a limit of at least 1, the list is the last maxMessages of the old list and the new messages; if a message cannot be encoded, those before it stay pushed and nothing is trimmed. |
| `RedisStore.SaveIsItsSteps` | storage/redis_store.go:121-141 | Run without interruption, the interleaved machine's three writes of a save change the keys exactly as the object's Save does, and leave one prune pending. |
| `RedisStore.AppendIsItsSteps` | storage/redis_store.go:215-226 | Run without interruption, the interleaved machine's pushes, and its trim unless a message breaks the call off, give the list the object's AppendMessages gives. |
| `RedisStore.SharedListIff` | storage/redis_store.go:89-91 | Two sessions share a message list exactly when tenant and session, joined by a colon, read the same; tenants without a colon never do. |
| `RedisStore.KindsApart` | storage/redis_store.go:77-91 | State, index and message list keys never coincide, whatever sessions are called. |
| `RedisStore.EncodableMeans` | storage/redis_store.go:215-219 | What AppendMessages pushes: the encoding of each message before the first that has none. |
| `RedisStore.DecodedSnoc` | storage/redis_store.go:195-201 | The listing takes each entry that decodes, in order, and skips the others. |
| `RedisListing.ListingFallsByMillisecond` | storage/redis_store.go:189-207 | At every reachable step a session's listing shows every indexed checkpoint, by falling millisecond, and the data of each is there. |
| `RedisListing.ListingIsNewestFirstIff` | storage/redis_store.go:131-207 | It is newest first by creation time exactly when no two listed saves of one millisecond have members ordered against time. |
| `RedisListing.SpacedSavesListNewest` | storage/redis_store.go:131-207 | Saves in distinct milliseconds are listed newest first, and with no prune pending no dropped checkpoint is newer than a kept one. |
| `RedisListing.SameMillisecondListsOlderFirst` | storage/redis_store.go:112-150 | A concrete pair of saves in one millisecond is listed older first, and a store that keeps one checkpoint drops the newer. |
| `Planner.Plan.CurrentStep` | planner/react.go:39-46 | The first step that is Pending or Running, or none. |
| `Planner.ReActPlanner.Revise` | planner/react.go:113-174 | The plan rewritten in place and the answer, as the specification says; without a plan an error and no change. |
| `Planner.PlanInClosedForm` | planner/react.go:94-174 | After any calls the statuses read Completed*, at most one Running, Pending*, with the exact number of each. |
| `Planner.RoundCap` | planner/react.go:132-162 | Call maxRounds + 1 and every later one answers Terminal; before that a tool call is answered by ToolExecutorNode, any other non-empty observation by LLMNode, and neither by Terminal. |
| `Planner.StepsRecordAnswers` | planner/react.go:145-162 | Step m of the plan is what call m answered. |
| `Planner.StepsRecordObservations` | planner/react.go:123-130 | Each observation is filed on the step completed with it and stays there. |
| `Planner.RunningStepLagsBehind` | planner/react.go:164-170 | The step Revise marks Running is the one answered by the call before, not the one it just appended. |
| `Registry.ConcreteToolRegistry.Register` | tools/registry.go:30-38 | Adds a new tool; a duplicate name is reported and changes nothing. |
| `Registry.ConcreteToolRegistry.GrantPermission` | tools/registry.go:58-65 | Adds exactly this pattern for exactly this tenant, creating the tenant's table if needed. |
| `Registry.ConcreteToolRegistry.RevokePermission` | tools/registry.go:68-74 | Removes exactly this pattern of exactly this tenant; an unknown tenant gets no table. |
| `Registry.ConcreteToolRegistry.AuthorizeCall` | tools/registry.go:78-112 | Passes iff the tenant is empty or some pattern in its table matches exactly, as `*` or as a `:*` prefix. |
| `Registry.ConcreteToolRegistry.ExecuteConcurrent` | tools/registry.go:116-163 | Whatever the order of the goroutines, slot i answers call i: its call ID, and a denial, an unknown tool, the tool's error text or its output, of which only the last is no error. |
| `Registry.TableHoldsStanding` | tools/registry.go:58-74 | A pattern is in a tenant's table iff the last change to it was a grant. |
| `Registry.AuthorizedByHistory` | tools/registry.go:58-112 | Authorization read off the grant and revoke history; revoking a tool does not undo a wildcard that covers it. |
| `Registry.CoversIff` | tools/registry.go:90-109 | A pattern covers a tool exactly if it is its name, is `*`, or ends in `:*` and the name begins with the rest, colon included. |
| `Registry.OutcomeAnswers` | tools/registry.go:124-158 | What a caller reads off the outcome of a call. |
| `Dispatch.DispatchIsScheduleIndependent` | tools/registry.go:120-162 | With a fixed registry every interleaving of authorize, look-up and execute steps puts into each slot whose goroutine made three steps what the sequential map would, with its own call ID. |
| `Dispatch.ThreeStepsFinish` | tools/registry.go:120-162 | A goroutine's slot is filled after three steps of its own, whatever is interleaved. |
| `Dispatch.ResultsAreOutcomes` | tools/registry.go:120-162 | While the registry changes, each result is its call's outcome under a permission table the registry held at some step and a tool table it held no earlier. |
| `Dispatch.SlotsHoldOwnOutcomes` | tools/registry.go:116-160 | A slot stays empty until its goroutine finishes and is written from that goroutine's call only. |
| `OpenAI.MapMessages` | providers/openai.go:118-158 | The request: the system prompt first, if there is one, then exactly one wire message for each message of known role, in order. |
| `OpenAI.MapMessage` | providers/openai.go:124-156 | The role by name, the calls in order as function calls, the last tool result's ID and, if not empty, its text; otherwise the text parts concatenated. |
| `OpenAI.TextConcat` | providers/openai.go:130-133 | Text is read part by part, in order. |
| `OpenAI.MapResponse` | providers/openai.go:280-312 | An assistant message: the first choice's text, if any, then one call part for each of its calls with decoded arguments, in order. |
| `OpenAI.RoundTripIsNormalForm` | providers/openai.go:118-312 | A valid assistant message whose arguments survive their encoding comes back as its whole text then its calls; the form is idempotent and makes the same request. |
| `OpenAI.RoundTripKeepsRequestIff` | providers/openai.go:118-312 | For any assistant message whose arguments survive their encoding the round trip keeps the request exactly when the message answers no tool call. |
| `OpenAI.RequestCarriesCalls` | providers/openai.go:124-156 | Over any history the tool calls emitted are exactly those of known-role messages, in order; their arguments come back exactly when they survive their encoding. |
| `OpenAI.OnlyLastResultSurvives` | providers/openai.go:146-149 | A message of tool results sends the text and the call ID of the last one, and the others change nothing in the request. |

## Left out

- In-place change of a state a node was given (`a2a/delegate_node.go`): the engine's states are values, so aliasing between a node's input and its result is not modelled; `StateObject` shows that the With* helpers cause none.
- Hooks that change the state they are shown (the context-window hook); the token, audit, Prometheus and OpenTelemetry hooks are counters and sinks.
- Two calls of Start or Resume on the same session at the same time: calls follow one another; calls on different sessions do so in any order.
- The contents of pause events and of task status messages.
- JSON in detail: the in-memory store keeps states by value, so what an encoding changes (a `*Plan` kept in a state's variables) is not modelled there.
- Float rounding and truncation to nanoseconds in the back-off: durations there are reals.
- When exactly a context is cancelled during a wait: cancellation is a flag asked once per wait.
- Redis expiry, failures of single Redis commands, failed prunes, and negative limits, for which the windows are not kept.
- `CreatedAt` of in-memory checkpoints, and with it `GetTimeline` and `MermaidGantt` (a load loop, a library sort and text).
- Go's random map order: where the source ranges over a map the model picks elements in an arbitrary order, and no result depends on it except which missing terminal Build names.
- A tool or tool-call part with a nil pointer, and tools with side effects on the registry.
- `GetTool`, `ListTools`, `LastMessage`, `GetStringVariable`, `Summarise`, `State`, `Search`: reads or stubs without further consequence.
- HTTP, gRPC, SSE, JWT, the SQL stores, migrations, security filters, evaluation, mocks, and the providers apart from the OpenAI message mapping.
