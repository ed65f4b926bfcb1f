# Build orchestration and live reload, modelled in Dafny

This project models the stateful core of a chat-driven web-project editor's
backend. The user edits a generated React/Vite project and watches a live
preview, and four pieces keep that preview up to date:

- **`BuildService`** (`build_service.dfy`, module `Builds`) keeps several
  per-session tables:
  - status (PENDING, BUILDING, SUCCESS, ERROR), error text, build time, and
    a log bounded to 100 lines;
  - a FIFO of build jobs;
  - an mtime check that decides whether `dist` is still newer than every
    file under `src`;
  - the two-phase `npm install` / `npm run build` pipeline of
    `build_project`.

  `build_project` is split at its two `await` points:
  - `StartBuild` runs the checks and starts the run.
  - `CompleteInstall` and `CompleteBuild` resume it once the command has
    finished. A success ends the run in `SucceedBuild`; a failure or
    fault ends it in `FailInstall`, `FailBuild` or `EndWithFault`.

  The map `runs` holds the runs suspended at one of those points.
  `Valid()` states that a session is BUILDING exactly while it has such a
  run, and that no log exceeds 100 lines. Every WebSocket broadcast and
  progress-callback call the service schedules is recorded, in order, in
  `notices`. Each `_add_log` step is specified by the pure function
  `Logged` over a `LogBook` (the logs plus the notices), and a failed step
  by `FailureBook`.
- **`CodeChangeHandler`** and **`FileWatcher`** (`file_watcher.dfy`, module
  `Watching`):
  - the path filter, stated over the path's `/`-separated components and
    the last component's suffix;
  - the per-path debouncer, held in the maps `lastChangeTime` and
    `pendingTasks`. A sleeping task waking up is the explicit method
    `FirePending`. Cancelling a task and scheduling its replacement is one
    map update;
  - the registry of watched sessions.

  The clock is in integer milliseconds and the window is 1000 ms. Callback
  invocations are recorded in `handled`.
- **`WebSocketManager`** (`websocket_manager.dfy`, module `WebSockets`) is a
  registry from session to a set of endpoints.
  - Each method is specified by a pure transition on the registry
    (`AfterConnect`, `AfterDisconnect`, `AfterBroadcast`).
  - A broadcast loops over a snapshot of the set. The endpoints whose send
    raises are passed in as a parameter.
- **`Config.validate`** (`config.dfy`, module `Configuration`) checks three
  rules in order, collects one message per broken rule, and raises with the
  messages joined by `", "`.

`common.dfy` (module `Text`) holds the Python sequence and string
operations the others use: `s[-n:]`, `s[:n]`, `str.split`, `str.join`,
`str.strip()` emptiness, and the `:.2f` rendering of a time.

## Behaviour worth knowing

The code does the following, and the model follows it. Some of these
differ from what "debounce", "stop watching" or "already building"
usually lead a reader to expect.

- **Debounce bursts.** A debouncer usually collapses a burst of events into
  one call after the last event. Here the first event on a path finds no
  recorded change time and fires at once; a later event inside the window
  schedules a delayed call. Three events on one path 300 ms apart with a
  1 s window therefore run the callback twice
  (`BurstFiresLeadingAndTrailing`).
- **Stopping a watch.** `stop_watching` stops the observer and forgets the
  session, but it does not cancel the handler's sleeping tasks. Such a task
  still wakes and calls back (`StopLeavesPendingTask`).
- **Enqueueing twice.** `queue_build` answers "Build already in progress"
  only once a run has set BUILDING. Two requests made before dispatch are
  both queued (`QueueTwiceBeforeDispatch`).
- **Two cache checks.** `queue_build` requires `dist/index.html` before it
  trusts the cache, but `build_project` does not. A queued run can
  therefore return at once as up to date. The session is then left PENDING
  with the empty log `queue_build` gave it, and no run is in flight
  (`QueuedRunFindsCache`, `QueuedRunLeftPending`).
- **Errors survive success.** A later successful build keeps the error text
  of an earlier failure, and the status report then shows SUCCESS together
  with the old error (`StaleErrorAfterSuccess`).

## Model

| member | source | states |
|---|---|---|
| Configuration.Validate | src/config.py:30-41 | passes iff the OpenAI key and Supabase URL are set and at least one Supabase key is set; otherwise the message is the prefix plus the rule messages of the broken rules joined by ", " |
| Configuration.ReportedIffBroken | src/config.py:34-39 | each rule's message is in the error list exactly when that rule is broken |
| Configuration.ErrorsInCheckOrder | src/config.py:33-39 | every reported message is a rule message, and the messages appear in strictly increasing rule order (so none repeats) |
| Configuration.OneSupabaseKeySuffices | src/config.py:38-39 | with the first two settings present, either Supabase key alone yields no errors |
| WebSockets.AfterConnect | src/websocket_manager.py:17-22 | connect adds the endpoint to the session's set, creating the entry if absent; other sessions keep their sets |
| WebSockets.AfterDisconnect | src/websocket_manager.py:25-30 | unknown session: unchanged; otherwise the endpoint is removed and the key deleted once its set is empty; other sessions unchanged |
| WebSockets.AfterBroadcast | src/websocket_manager.py:40-54 | unknown session: unchanged; otherwise the key stays and its set loses exactly the failing endpoints; other sessions unchanged |
| WebSockets.ConnectionCount | src/websocket_manager.py:56-58 | the size of the session's set, 0 for an unknown session |
| WebSockets.ConnectCount | src/websocket_manager.py:17-22 | connecting a new endpoint raises the count by one, a known endpoint leaves it unchanged |
| WebSockets.DisconnectUndoesConnect | src/websocket_manager.py:17-30 | disconnecting a just-connected new endpoint restores the registry when no session has an empty set |
| WebSockets.ConnectDisconnectKeepNoEmptyEntries | src/websocket_manager.py:17-30 | connect and disconnect never leave a session with an empty set |
| WebSockets.BroadcastCanLeaveEmptyEntry | src/websocket_manager.py:48-54 | a broadcast whose every send fails keeps the session key with an empty set and count 0 |
| WebSockets.WebSocketManager.constructor | src/websocket_manager.py:13-15 | the registry starts empty |
| WebSockets.WebSocketManager.Connect | src/websocket_manager.py:17-22 | the new registry is AfterConnect of the old |
| WebSockets.WebSocketManager.Disconnect | src/websocket_manager.py:25-30 | the new registry is AfterDisconnect of the old |
| WebSockets.WebSocketManager.BroadcastToSession | src/websocket_manager.py:40-54 | the new registry is AfterBroadcast of the old; the endpoints attempted are exactly the snapshot's, each once |
| WebSockets.WebSocketManager.GetConnectionCount | src/websocket_manager.py:56-58 | the size of the session's current set |
| Watching.Components | src/file_watcher.py:27-28 | path components are the non-empty, non-"." segments |
| Watching.NamedSegments | src/file_watcher.py:27-28 | keeps exactly the named segments: each kept one is a segment and every named segment is kept |
| Watching.LastIndexOf | src/file_watcher.py:32 | the position of the last occurrence of the character, or -1 when there is none |
| Watching.Suffix | src/file_watcher.py:32 | a non-empty suffix is a proper tail of the name starting with its only dot |
| Watching.SuffixFromLastDot | src/file_watcher.py:32 | a name whose last dot is neither first nor last has the suffix starting at that dot (so "App.tsx" has ".tsx") |
| Watching.HasExcludedPart | src/file_watcher.py:28 | true iff some component is one of the excluded directory names |
| Watching.ShouldProcessEvent | src/file_watcher.py:24-35 | true iff no component is excluded and the name's suffix is a watched one |
| Watching.ExcludedSegmentIgnored | src/file_watcher.py:27-29 | a path with node_modules, dist, .git or __pycache__ as any segment is never processed |
| Watching.WatchedFileProcessed | src/file_watcher.py:24-35 | a file with a watched suffix in a directory without excluded components is processed |
| Watching.LastIndexOfAt | src/file_watcher.py:32 | a character with no later occurrence is the one found |
| Watching.ExcludedNamesHaveNoSuffix | src/file_watcher.py:28-32 | none of the excluded names has a suffix |
| Watching.CodeChangeHandler.constructor | src/file_watcher.py:17-22 | the handler keeps its session and window and starts with no change times, tasks or calls |
| Watching.CodeChangeHandler.OnModified | src/file_watcher.py:37-61 | directory events and filtered paths change nothing; outside the window the change time is recorded and the callback fires at once; inside it the path's task is replaced by a sleeping one for this event, with nothing else changed |
| Watching.CodeChangeHandler.FirePending | src/file_watcher.py:63-70 | a path without a sleeping task changes nothing; otherwise the task runs, and fires and records its change time iff the recorded time is not later |
| Watching.CodeChangeHandler.HandleChange | src/file_watcher.py:72-78 | the callback is invoked once, whatever it raises, and the debounce maps are unchanged |
| Watching.BurstFiresLeadingAndTrailing | src/file_watcher.py:47-70 | three events 300 ms apart on one path give two callbacks, the last change recorded being the third event's |
| Watching.SupersededTaskDoesNothing | src/file_watcher.py:50-70 | a sleeping task overtaken by a later immediate fire does nothing when it wakes, and a raising callback changes nothing |
| Watching.FileWatcher.constructor | src/file_watcher.py:84-87 | all three tables start empty |
| Watching.FileWatcher.IsWatchingSession | src/file_watcher.py:128-130 | true iff the session has an observer |
| Watching.FileWatcher.WatchSession | src/file_watcher.py:89-113 | a no-op for a watched session or a missing src; otherwise a fresh handler with the 1 s window is registered and the session is watched |
| Watching.FileWatcher.StopWatching | src/file_watcher.py:115-126 | the session leaves all three tables; a no-op when it is not watched |
| Watching.FileWatcher.StopAll | src/file_watcher.py:132-135 | afterwards every table is empty and no session is watched |
| Watching.StopLeavesPendingTask | src/file_watcher.py:115-126 | after stop_watching the session is not watched, yet its sleeping task still fires the callback |
| Builds.AnyNewer | src/build_service.py:149-153 | true iff some source mtime is strictly greater than dist's |
| Builds.StatusValuesDistinct | src/build_service.py:21-26 | the four status values are pairwise distinct strings |
| Builds.GetBuildPath | src/build_service.py:337-343 | a path iff dist exists, and then it is the session's dist folder, whether or not index.html exists |
| Builds.BuiltHasPath | src/build_service.py:331-343 | a built project has the dist folder as its build path, and a build path without index.html does not make a project built |
| Builds.LoggedAllFrame | src/build_service.py:42-64 | logging for one session leaves every other session's log untouched, adds no other key, and only appends notices |
| Builds.LoggedKeepsBound | src/build_service.py:47-49 | one `_add_log` keeps every log within 100 lines |
| Builds.LoggedAllKeepsBound | src/build_service.py:47-49 | any number of `_add_log` calls keep every log within 100 lines |
| Builds.LogOfLogged | src/build_service.py:44-49 | after `_add_log` the session's log is the last 100 of the old log plus the message |
| Builds.LoggedAllKeepsLast | src/build_service.py:44-49 | after logging a sequence of messages the log is the last 100 of the old log followed by all of them, in order |
| Builds.ProgressCarriesRecentLogs | src/build_service.py:51-64 | each `_add_log` schedules a progress broadcast carrying the last 20 lines, followed by a callback call exactly when a callback is set |
| Builds.IndentedFromNonBlank | src/build_service.py:273-276 | every logged error line is two spaces followed by a non-blank input line |
| Builds.NonBlankIndented | src/build_service.py:273-276 | every non-blank input line is logged, indented by two spaces |
| Builds.IndentNonBlankByIndex | src/build_service.py:273-276 | the indented lines are the non-blank lines in their original order, repetitions included: the k-th is the line at the k-th non-blank position, and those positions increase and cover every non-blank line and no other |
| Builds.ErrorLines | src/build_service.py:273-276 | at most ten error lines are logged, none containing a newline |
| Builds.TouchInvalidatesCache | src/build_service.py:144-158 | with dist newer than every source a non-forced request is up to date; making one source newer makes it queue |
| Builds.QueueWithoutCache | src/build_service.py:144-172 | a forced request, a missing src or an unbuilt project always queues when not building |
| Builds.QueuedRunFindsCache | src/build_service.py:144-225 | with dist but no index.html a request is queued while the run it starts stops as up to date |
| Builds.QueuedRunLeftPending | src/build_service.py:144-225 | in that case the request is queued, the dispatched run returns up to date, and the session is left PENDING with an empty log |
| Builds.FaultOutcome | src/build_service.py:297-316 | the message is "Build timed out after 5 minutes" for a timeout and "Build error: " plus the reason otherwise; it is recorded and returned, logged after "Error: ", and broadcast |
| Builds.InstallOutcome | src/build_service.py:244-252 | the run proceeds iff install exits 0; a failure broadcasts iff it is a fault and logs one line |
| Builds.BuildOutcome | src/build_service.py:267-280 | the run proceeds iff the build exits 0; a failure broadcasts iff it is a fault and logs at most 11 lines |
| Builds.ExitFailureReport | src/build_service.py:244-280 | a non-zero exit records prefix plus the full output (stderr, else stdout), returns prefix plus exactly its first min(500, length) characters, and broadcasts nothing |
| Builds.BuildFailureLines | src/build_service.py:267-276 | a failed build logs "Error: Build failed", then the non-blank lines among the last ten of the output, indented, in their order and with repetitions: the k-th at the k-th non-blank position |
| Builds.FailureKeepsBound | src/build_service.py:244-316 | a failed step keeps every log within 100 lines |
| Builds.ErrorBroadcastOnlyOnFault | src/build_service.py:244-316 | a failed step ends with an error broadcast iff it was a timeout or fault |
| Builds.BuildService.constructor | src/build_service.py:32-40 | all tables, the queue, the runs and the notices start empty |
| Builds.BuildService.SetProgressCallback | src/build_service.py:118-120 | the session gains a callback and nothing else changes |
| Builds.BuildService.ClearProgressCallback | src/build_service.py:122-124 | the session loses its callback, if any, and nothing else changes |
| Builds.BuildService.GetBuildLogs | src/build_service.py:126-128 | the stored log of a known session, [] for an unknown one, and never more than 100 lines |
| Builds.BuildService.GetBuildStatus | src/build_service.py:321-329 | PENDING for an unknown session, the stored status otherwise; the stored error and build time, or none; and the last at most 20 log lines |
| Builds.BuildService.AddLog | src/build_service.py:42-64 | the log book becomes Logged of the old one and no other table changes |
| Builds.BuildService.QueueBuild | src/build_service.py:130-172 | the reply is "building", "up to date" or "queued" as decided from the old status and tree; the reply's status is BUILDING exactly when the session was building; only "queued" appends the job, sets PENDING (the reply's own status) and empties the log, and nothing else changes |
| Builds.BuildService.DispatchNext | src/build_service.py:174-181 | pops the oldest job, if any, changing nothing else |
| Builds.BuildService.StartBuild | src/build_service.py:187-234 | an early return changes no status, run or log; otherwise the session is BUILDING with a run started now and "Build started", "Installing dependencies..." logged |
| Builds.BuildService.CompleteInstall | src/build_service.py:235-257 | exit 0 logs the two messages and moves the run to the build step; otherwise the run ends in failure with the install outcome |
| Builds.BuildService.FailInstall | src/build_service.py:244-252 | ERROR, the full error recorded, one line logged, no broadcast, the callback and the run gone, the shortened error returned |
| Builds.BuildService.SucceedBuild | src/build_service.py:282-295 | SUCCESS with the elapsed time recorded, the completion message logged and the completion broadcast, the callback and the run gone, the error left as it was |
| Builds.BuildService.CompleteBuild | src/build_service.py:258-319 | exit 0 gives SUCCESS with the elapsed time recorded, the completion logged and broadcast and the run ended; otherwise the run ends in failure with the build outcome |
| Builds.BuildService.FailBuild | src/build_service.py:267-280 | ERROR, the full error recorded, the failure and output lines logged, the callback and the run gone, the shortened error returned |
| Builds.BuildService.LogErrorLines | src/build_service.py:273-276 | the loop leaves the log book as if each non-blank line, indented, had been logged in turn |
| Builds.BuildService.EndWithFault | src/build_service.py:297-319 | ERROR with the timeout or fault message recorded, logged and broadcast, the callback and the run gone |
| Builds.FreshSessionBuild | src/build_service.py:130-319 | a queued, dispatched, started run returns the elapsed time with SUCCESS iff both commands exit 0, and an error with ERROR otherwise |
| Builds.QueueTwiceBeforeDispatch | src/build_service.py:136-172 | two requests before dispatch are both queued, and the queue holds both jobs |
| Builds.StaleErrorAfterSuccess | src/build_service.py:244-329 | after a failed install and a later success the status report shows SUCCESS and the old install error |

## Left out

- **Scheduling.** asyncio scheduling is not modelled.
  - The queue processor (`_process_build_queue`), started lazily by
    `queue_build`, is one explicit dispatch step, `DispatchNext`. The
    `build_project` task it creates is `StartBuild`, called by the caller.
    `_queue_processor_task` and the unused `build_tasks` table have no
    counterpart.
  - Interleavings of runs of different sessions are reachable only through
    the order in which the caller invokes the methods.
  - `on_modified` runs on the watchdog Observer thread, where no asyncio
    event loop is running, so its `asyncio.create_task` calls would raise
    `RuntimeError` rather than schedule anything. The model assumes, as
    the code's authors evidently did, that both the immediate and the
    delayed task reach the event loop. `OnModified`, `FirePending` and the
    burst scenarios describe that intended scheduling, not the failure.
- **External processes, threads and the file system.**
  - Each `npm` subprocess is a `ProcessResult` input, and its 300-second
    timeout is the `TimedOut` case.
  - The watchdog `Observer` threads are represented only by membership in
    `observers`.
  - The project tree is a `ProjectTree` record; `code_executor` is not
    part of this model.
- **Clocks.** `time.time()` readings are inputs. Build times are integer
  hundredths of a second, so the `:.2f` text is exact and float rounding is
  not modelled. The debounce clock is integer milliseconds.
- **Broadcast messages.** Their contents (uuid ids, millisecond timestamps,
  the JSON envelopes) are not modelled. A scheduled broadcast is a `Notice`
  naming what it would carry. Delivering it through the WebSocket manager,
  and the exceptions `_broadcast_*` swallows, are left out.
- **Callback exceptions.** A progress callback that raises inside
  `_add_log` is caught and printed. The model records the call and nothing
  else.
- **Console output.** `print` output and the WebSocket `accept` handshake
  are not modelled.
- **Concurrent disconnects.** A `KeyError` that a concurrent disconnect
  could cause inside `broadcast_to_session` is not modelled.
- **`send_personal_message`.** Not modelled: a single send whose exception
  is printed and dropped.
- **Paths.** Path components are modelled as a split on `/` without empty
  and `.` segments. Windows separators and `..` are not interpreted.
- **Other source files.** `database.py`, `agent_v2.py`, `server.py`,
  `code_executor.py` and the worker are not part of this model.
- Builds.BuildService.AddLog: requires the class invariant `Bounded` (every
  log within 100 lines) that all methods keep. From an arbitrary state
  holding a longer log it promises nothing.
