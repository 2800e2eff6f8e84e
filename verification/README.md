# Models of jetty's supervisor and of its stateful modules

This project models the hard core of the repository in Dafny and proves what it is for.

The first half is `jetty-orc`, the supervisor of a group of restarting services. It is a single-threaded asyncio
program, so what runs between two suspending awaits is atomic: each service is a step system with one action for each
such segment, and the environment contributes clock ticks, process exits, gate answers, resolver results and calls.
`Service.dfy` has the steps of one service, `ServiceObject.dfy` the object whose methods carry them out field by
field, `GatedService.dfy` its rounds of the shared gates, and `ServiceKills`, `ServiceBudget`, `ServiceOverflow`,
`ServiceFairness`, `ServiceLeak`, `ServiceStart`, `ServiceStop`, `ServiceVerdicts` and `ServiceSignals` what holds
over every run. `Supervisor.dfy` puts services, resolver generations and bounce tasks together into one system;
`Pinning`, `PinningRecords`, `PinningQuiet`, `PinningPrompt`, `PinningSplits` and `StartSafety` are about its runs,
`PinningRenders`, `PinningStarts` and `PinningRaces` build the runs that show a condition exact, and
`SupervisorObject` is about the loops of `_enforce_pinning`. `StartOrder` and `Teardown` order the services, `Gates`
and `GateStreaks` are the gate cache and the watcher that counts on it, `ResolverOutput` and `Resolvers` the
resolvers, `Merge` and `Inheritance` config inheritance, `PortSpec` and `Ports` the port broker, `Console` the line
buffer.

The second half are three modules with state of their own: `AtomicFiles`, `AtomicFilesSteps` and `LocalDriver` (atomic
replacement of files, one system call at a time), `Scratch` (scratch directories known by identity), `Migrations` (the
SQLite migration ledger), `Tracker` and `Listing` (change history, ordering and paging of the issue tracker's mock).

Objects whose methods update fields are classes here, proved method by method against functions on their state; the
results over whole runs are lemmas about those functions. What other tasks, processes or users do in between is part of
each model: a method calls `Others` or `OtherTasks` at each await or between system calls, and those do anything the
model allows.

## Where the naive claim is false

Each of these has a concrete counterexample and the exact condition under which the claim does hold.

- A bounce that runs between a sibling's render and its process start has no effect (`service.py:284-287`), and the
  group can stay split across releases: `PinningSplits.BounceInTheSpawnWindow`, `PinningQuiet.LagsExactlyWhenDropped`.
- A service of several resolvers records generations read after all of them were awaited (`supervisor.py:289`), which
  may be newer than what it was rendered with: `PinningSplits.RecordedAfterResolving`, `PinningRaces.AgreesExactly`.
- With both `_gate_stop` and `_bounce_requested` set only the first is consumed (`service.py:218-230`), and the next
  crash is excused: `ServiceLeak.FlagIsUpExactlyIfLeaked`, `ServiceLeak.LeakedFlagExcusesACrash`.
- `stop` during a spawn leaves the new process running: `ServiceStart.StopMissesASpawn`,
  `ServiceStop.StopMissesExactly`.
- A `max_restarts` above 1024 lets the backoff overflow (`service.py:261`), and the run loop dies of it, if the window
  is long enough: `ServiceOverflow.OverflowsExactly`, `ServiceOverflow.DefaultsNeverOverflow`.
- `merge_raw` is not associative: `Merge.DeletedTwice`, `Merge.AssociatesExactly`.
- With `/` as its root the local driver admits nothing under it, although its documentation promises everything under
  the root: `Scratch.UnderRootMeaning`, `Scratch.NothingUnderSlash`.
- `parse_port_spec` promises `None` for a malformed spec, but raises for digits that are not decimal and for
  numbers longer than `int` takes: `PortSpec.SuperscriptRaises`, `PortSpec.LongPortRaises`,
  `PortSpec.RaisesExactly`.
- A modify refused in the middle leaves unrecorded changes, and the hotlist calls record none:
  `Tracker.RefusedModifyIsUnrecorded`, `Tracker.ReplaysExactly`, `Tracker.HotlistsAreUnrecorded`,
  `Tracker.HotlistsExactly`. The surface admits only fields the driver knows.

## Model

| member | source | states |
|---|---|---|
| `ServiceKills.NoStrayKill` | src/jetty/orchestrator/service.py:279-313 | in every reachable state of a service, every signal that a bounce, the readiness timeout, the path watcher, the gate watcher or the post-exit sweep ever sent landed on the incarnation it was decided against, never on a later one |
| `ServiceBudget.BudgetIsExact` | src/jetty/orchestrator/service.py:247-259 | over every run with a nondecreasing clock, `_fail_times` is exactly the charged exits since the service last blocked that are younger than the window, `restarts` counts all charged exits, and the service has failed on budget if and only if that list is longer than `max_restarts`, which it exceeds by at most one; the run loop has died of an overflow if and only if the list is within `max_restarts` and longer than 1024; otherwise the delay it backs off for is that of the list's length |
| `ServiceBudget.RecentGrows` | src/jetty/orchestrator/service.py:247-250 | pruning at each exit and appending is the same as filtering the whole history of charges by the window once |
| `ServiceBudget.BackoffLaw` | src/jetty/orchestrator/service.py:260-263 | every backoff after at most 1024 charges in the window is positive, at most `backoff_max_seconds`, and never shrinks as the count grows; past 1024 there is none, since computing it raises |
| `ServiceBudget.BackoffDoubles` | src/jetty/orchestrator/service.py:260-263 | the first backoff is the initial one and each further charge in the window doubles it, up to `backoff_max_seconds` |
| `ServiceBudget.HeldInWindow` | src/jetty/orchestrator/service.py:247-250 | in every reachable state the failure times held are an end of the list of charges since the service last blocked: exactly those less than a window before the last of them |
| `ServiceOverflow.OverflowsExactly` | src/jetty/orchestrator/service.py:247-268 | some run of a service ends with the run loop dead of the overflowing backoff if and only if its `max_restarts` is above 1024 and its first 1024 backoffs, each slept through, are together shorter than `window_seconds` |
| `ServiceOverflow.AlwaysPaced` | src/jetty/orchestrator/service.py:247-268 | over every run: the charged exits held are inside the window of the latest, and between two of them lies at least the backoff that follows the first |
| `ServiceOverflow.DefaultsNeverOverflow` | src/jetty/orchestrator/config.py:275-278 | with the default window and delays no `max_restarts` makes a service overflow |
| `ServiceFairness.VerdictsAreDeserved` | src/jetty/orchestrator/service.py:212-246 | over every run: an exit is charged, judged not worth retrying or excused by a failing gate only if nobody had told that incarnation to stop; it is put down to a bounce only if a bounce or path watcher had signalled it or a leaked flag was left over; and to a gate stop only if the gate watcher had signalled it |
| `ServiceVerdicts.RecordIsExact` | src/jetty/orchestrator/service.py:209-268 | over every run: an exit is charged, or put down to a failing gate, only if its code is not in `no_restart_exit`, and judged not worth retrying only if it is; the service has failed for that if and only if its latest judgement says so; a charge directly follows a gate round that passed, an excuse one that failed, and so does entering `blocked`; each process started is judged once, in order, by the code it exited with, and each attempt before the next one; the service is ready exactly from its readiness until that exit is judged |
| `ServiceSignals.SignalsEscalate` | src/jetty/orchestrator/service.py:279-313 | over every run: a process that `restart`, a watcher or `stop` asked to stop has exited, has been sent SIGKILL, or is still given its grace period; none of them kills a process unasked, except that `stop` kills what has exited or started since; and before another process is started the last one's group has been swept with SIGKILL |
| `ServiceSignals.WhoAsks` | src/jetty/orchestrator/service.py:271-299 | a live process is asked to stop by a restart unless the service is stopping or a bounce is already requested, by a path that moves, by a gate that closes, and by `stop` |
| `ServiceLeak.LeaksExactlyWhenBothFlagsAreSet` | src/jetty/orchestrator/service.py:218-230 | an exit sends the loop back to its top with the bounce flag still up for the next incarnation if and only if both flags were set and the service is not stopping |
| `ServiceLeak.FlagIsUpExactlyIfLeaked` | src/jetty/orchestrator/service.py:216-231 | over every run: while no incarnation is running or being judged, the bounce flag is up if and only if an earlier exit was put down to a gate stop with the flag up and none has been excused by it since |
| `ServiceLeak.NoLeakWithoutContinuousGates` | src/jetty/orchestrator/service.py:341-345 | without continuous gates no reachable state has the gate flag set or a leaked bounce flag |
| `ServiceLeak.LeakedFlagExcusesACrash` | src/jetty/orchestrator/service.py:218-230 | a concrete run in which both flags are set, the second is left over, and the next incarnation's own crash is excused as a bounce nobody asked it for |
| `ServiceStart.StopLeavesAtMostOne` | src/jetty/orchestrator/service.py:271-277 | over every run: after `stop` was called at most one more process starts; once `stop` has returned, a live process has been hit by SIGKILL or is that one |
| `ServiceStart.StopMissesASpawn` | src/jetty/orchestrator/service.py:271-277 | a concrete run in which `stop` returns and the process then starts |
| `ServiceStop.StopMissesExactly` | src/jetty/orchestrator/service.py:271-277 | with a containment that knows a process once it is registered, for every run and every call of `stop` in it: some continuation has `stop` returned and a live process that no SIGKILL has hit, if and only if the call finds the run loop asking the gates, rendering or starting the process |
| `ServiceStart.SpawnsAreGated` | src/jetty/orchestrator/service.py:202-215 | over every run every spawn attempt of a service with gates directly follows a round in which none of the gates it requires failed |
| `GatedService.AskGates` | src/jetty/orchestrator/service.py:209-246 | one round of a service's gates on the gate cache it shares, at the head of the loop, in `blocked` or after an exit: it spawns, leaves `blocked`, or is charged exactly if every required gate answered yes, each by its latest execution at some moment of the round, young enough for the cache, or made in the round after an exit; and its state moves by exactly that step |
| `ServiceObject.Service.Prune` | src/jetty/orchestrator/service.py:248-250 | the loop over `_fail_times` keeps exactly the entries younger than the window, in order |
| `ServiceObject.Drive` | src/jetty/orchestrator/service.py:202-313 | any possible sequence of segments, performed by the methods that update the object's fields, drives it through exactly the states of the step system, and what the results above say of every run is true of the object: signals, budget, verdicts, record and escalation |
| `Pinning.EveryStaleServiceIsCovered` | src/jetty/orchestrator/supervisor.py:282-306 | over every run of the whole instance: a live service whose recorded generation of a pinned resolver is older than a sibling's has a bounce pending, has been told to stop, or is one whose bounce ran without effect |
| `Pinning.RecordPins` | src/jetty/orchestrator/supervisor.py:282-306 | recording one service's new generations never makes another service less stale, and makes one newly stale only if the wave of bounces targets it |
| `PinningQuiet.LagsExactlyWhenDropped` | src/jetty/orchestrator/supervisor.py:282-306 | in a quiescent state a live service lags its group if and only if a bounce meant for it ran without effect |
| `PinningQuiet.NothingIsDropped` | src/jetty/orchestrator/service.py:284-287 | with no continuous gates and no bounce inside its target's spawn window, no bounce ever runs without effect |
| `PinningQuiet.NoSplitGroup` | src/jetty/orchestrator/supervisor.py:282-306 | for services none of whose resolvers can move between resolution and recording, such as those of one resolver, and with no continuous gates and no bounce inside a spawn window: all live members of a pinned group in a quiescent state were rendered on the same generation |
| `PinningSplits.BounceInTheSpawnWindow` | src/jetty/orchestrator/service.py:284-287 | a concrete run in which a bounce falls between render and process start, and the group stays split at rest |
| `PinningSplits.RecordedAfterResolving` | src/jetty/orchestrator/supervisor.py:289 | a concrete run in which a service of two resolvers records a newer generation of the first than it was rendered with, so that nobody bounces it and the group stays split |
| `PinningRecords.SteadyAgrees` | src/jetty/orchestrator/supervisor.py:282-290 | over every run, however the event loop schedules it: if each resolver of a service is refreshed once an instance, is used by no other service, or is the last in sorted order, what is recorded for the service is always exactly what its render was given |
| `PinningRaces.AgreesExactly` | src/jetty/orchestrator/supervisor.py:282-290 | over every run in which an answer from the cache is no await: what is recorded for a service is always exactly what its render was given, if and only if no other service can move one of its resolvers that is run at every spawn while it waits for a later one: a later one run at every spawn, or one resolved once an instance that nothing the two services wait for uses, when the other does not wait for this one. For services that, like those they share resolvers with, may be restarted once |
| `PinningPrompt.NotOvertakenAgrees` | src/jetty/orchestrator/resolvers.py:235-251 | one half, with no assumption on restarts: what a render has resolved stays current until it is recorded |
| `PinningPrompt.NoSplitUnlessOvertaken` | src/jetty/orchestrator/supervisor.py:282-306 | and then the live members of a pinned group in a quiescent state, outside spawn windows and without continuous gates, were rendered on the same generation |
| `PinningRaces.Race` | src/jetty/orchestrator/resolvers.py:227-242 | for every such pair of services and resolvers a run of the whole instance that records what was not given, whatever the services wait for |
| `PinningStarts.BringUp` | src/jetty/orchestrator/supervisor.py:197-223 | in every instance that has a start order any services that wait for no others can be brought up alone, each ready before those that wait for it begin |
| `SupervisorObject.Supervisor.EnforcePinning` | src/jetty/orchestrator/supervisor.py:282-306 | the two nested loops create one bounce for each sibling and resolver that needs one, each pair once, and nothing else |
| `StartSafety.NoSpawnBeforeItsDependencies` | src/jetty/orchestrator/supervisor.py:197-223 | over every run of the whole instance: a service that has attempted a spawn has had every direct and transitive `after` dependency ready at least once |
| `StartOrder.ComputeStartOrder` | src/jetty/orchestrator/config.py:636-650 | either a permutation of the services with every dependency before its dependents, in sorted waves, or a nonempty set in which every service waits for another |
| `StartOrder.StuckHasCycle` | src/jetty/orchestrator/config.py:641-644 | the set a failure names contains an actual cycle of `after` edges |
| `StartOrder.OrderExcludesCycles` | src/jetty/orchestrator/config.py:636-650 | a graph with a start order has no cycle |
| `StartOrder.StartOrderOrCycle` | src/jetty/orchestrator/config.py:636-650 | the services are ordered if and only if the `after` edges have no cycle; otherwise the set reported contains one |
| `Names.LessMeaning` | src/jetty/orchestrator/config.py:641 | names are sorted by the first character in which they differ, a proper prefix first |
| `Teardown.BuildDependents` | src/jetty/orchestrator/supervisor.py:308-312 | the reversed dependency table |
| `Teardown.WaveNotEmpty` | src/jetty/orchestrator/supervisor.py:313-323 | whenever the config has a start order, some remaining service has all its dependents stopped |
| `Teardown.Gather` | src/jetty/orchestrator/supervisor.py:318-323 | one wave: each of its services begins and returns exactly once, in any interleaving |
| `Teardown.StopAll` | src/jetty/orchestrator/supervisor.py:308-323 | the loop ends, stops every service exactly once, and begins a service only after all its direct dependents have returned |
| `Teardown.ChainStopsInOrder` | src/jetty/orchestrator/supervisor.py:308-323 | the same along chains of dependents of any length |
| `Gates.GateSet.Check` | src/jetty/orchestrator/gates.py:63-75 | the cached answer is served exactly while it is younger than `recheck_seconds` and no refresh is asked; otherwise one new execution is recorded, whatever other services do with other gates meanwhile |
| `Gates.GateSet.Satisfied` | src/jetty/orchestrator/gates.py:33-38 | the failing names are those of the gates whose answer was no, each answer the latest execution of its gate at some moment of the round, and from the round itself if a refresh was asked |
| `Gates.GateSet.Poll` | src/jetty/orchestrator/gates.py:50-61 | every answer of a poll is the latest execution of its gate at some moment of that poll, with its stamp, and was not too old for the cache when the poll began |
| `Gates.StampsDiffer` | src/jetty/orchestrator/gates.py:63-75 | later executions of a gate carry larger stamps |
| `GateStreaks.CountStep` | src/jetty/orchestrator/service.py:580-584 | counting keyed on the stamp counts executions: the same one never again, a new one always |
| `GateStreaks.CountedOnce` | src/jetty/orchestrator/service.py:580-584 | the counted executions are pairwise different and in order |
| `GateStreaks.TrailingMeaning` | src/jetty/orchestrator/service.py:580-588 | a streak of n means exactly that the last n counted executions all failed |
| `GateStreaks.GateWatcher.WatchOne` | src/jetty/orchestrator/service.py:565-599 | one turn of the watcher: it sleeps for the fastest cadence; if it then polls, each answer is the latest execution of its gate at some moment of the turn and none was too old for the cache after the sleep, and each is counted unless it is the one counted last; the process is stopped at that poll for exactly the gates whose last `close_after` counted executions failed, if it is still live |
| `GateStreaks.GateWatcher.Watch` | src/jetty/orchestrator/service.py:553-599 | over any number of polls, with other services polling, refreshing and running the same gates in between: the watcher ends at the first poll after which, of the executions its polls have observed, each once, the last `close_after` of some gate all failed, and for exactly those gates; while it goes on there is no such gate |
| `GateStreaks.ObservedRises` | src/jetty/orchestrator/service.py:565-584 | what the polls of a watcher have observed of one gate are executions in the order they happened, none twice |
| `GateStreaks.ObservedIsAnswered` | src/jetty/orchestrator/service.py:577-581 | an execution is observed exactly if some poll was answered from it |
| `GateStreaks.StreakIsReal` | src/jetty/orchestrator/service.py:580-588 | the streak a gate is closed for consists of that many different executions that failed, in order, with no observed pass between them |
| `GateStreaks.FastestIsNew` | src/jetty/orchestrator/service.py:568-584 | the gate at whose cadence the watcher wakes is answered, at every poll, from an execution that finished after the previous poll |
| `ResolverOutput.ParseOutput` | src/jetty/orchestrator/resolvers.py:143-177 | output is accepted exactly if it has a reading that gives every promised name one path, and the reading is returned; every refusal names a true fault |
| `ResolverOutput.OneReading` | src/jetty/orchestrator/resolvers.py:143-177 | output has at most one reading |
| `ResolverOutput.OrderCarriesNoMeaning` | src/jetty/orchestrator/resolvers.py:143-177 | rearranging the lines changes neither acceptance nor the reading |
| `ResolverOutput.StripMeaning` | src/jetty/orchestrator/resolvers.py:148-158 | stripping takes the white space around a text, all of it and nothing else |
| `ResolverOutput.EntryExactly` | src/jetty/orchestrator/resolvers.py:157-163 | a line is an entry exactly if it has an equals sign with something on both sides of the first one, which then, stripped, are its name and its path |
| `ResolverOutput.IgnoredExactly` | src/jetty/orchestrator/resolvers.py:148-152 | a line is ignored exactly if it is white space or its first other character is a hash |
| `ResolverOutput.MeaningfulJoins` | src/jetty/orchestrator/resolvers.py:148-152 | the lines carry meaning one by one |
| `Resolvers.MovesDiffer` | src/jetty/orchestrator/resolvers.py:248-249 | successive generations are successive different results |
| `Resolvers.GenerationDeterminesRelease` | src/jetty/orchestrator/resolvers.py:248-251 | over a whole run the generation never decreases, and equal generations mean the same release |
| `Resolvers.ResolverSet.Resolve` | src/jetty/orchestrator/resolvers.py:235-253 | a failure changes nothing; the cache is used exactly when it may be, holds what its last run gave, and that run is young enough; otherwise the answer is, path by path and fingerprint by fingerprint, what the script of this run printed, absolute paths of files there are, or the places of their copies, and it fails exactly if the script printed nothing of that kind; a success is the resolver's latest result, and the generation is the number of times the result has moved |
| `Resolvers.CameOnce` | src/jetty/orchestrator/resolvers.py:378-405 | what a script prints makes at most one release |
| `Resolvers.CameUncopied` | src/jetty/orchestrator/resolvers.py:378-405 | without `copy` the paths of a release are the script's output, word for word |
| `Resolvers.ResolverSet.ContextFor` | src/jetty/orchestrator/resolvers.py:227-233 | each resolver's names in a render are as the script of one of its own runs printed them, however many moved meanwhile; with a single resolver it is the run its generation counts; no other names are given; it fails only if a script printed no release |
| `Merge.MergeRaw` | src/jetty/orchestrator/config.py:567-576 | filling a copy key by key computes the recursive merge |
| `Merge.LookupLaw` | src/jetty/orchestrator/config.py:567-576 | what a merge holds at a key path depends only on what both configs hold there and on whether the child cuts the path off above |
| `Merge.AssociatesExactly` | src/jetty/orchestrator/config.py:567-576 | merging three configs is associative if and only if, wherever all three hold a key, no `false` in the last meets a table, a table replaced or deleted by the second is restated in full by the third, and three tables agree below |
| `Merge.UniformIsAssociative` | src/jetty/orchestrator/config.py:519-529 | merging three configs gives the same in either grouping when no `false` meets a table and each key is a table in all of them or in none |
| `Merge.DeletedTwice` | src/jetty/orchestrator/config.py:570-571 | it is not associative in general: the same deletion applied twice leaves a literal `false` |
| `Inheritance.LoadFollowsChain` | src/jetty/orchestrator/config.py:510-543 | loading ends for every set of files and follows the chain of parents to where it stops |
| `Inheritance.CycleExactly` | src/jetty/orchestrator/config.py:531-532 | a cycle is reported if and only if the chain of `extends`, as the files have it, comes back to a file before anything else is wrong |
| `Inheritance.LoadsExactly` | src/jetty/orchestrator/config.py:510-543 | a config loads if and only if following `extends` from file to file ends at one without it, without coming back to any; the config of that file is its own table, and the config of any other its table, less `extends`, merged over the config of the file it extends |
| `Inheritance.FailsExactly` | src/jetty/orchestrator/config.py:531-543 | any other error is reported if and only if the chain breaks off at a file that is missing, cannot be parsed, or extends something that is no text or not allowed, and it names that file |
| `PortSpec.ParsesExactly` | src/jetty/orchestrator/config.py:607-633 | a range is accepted if and only if it is written as one number, `low-high` or `low+`, in digits that `int` takes and no more of them than it takes, and lies within 1 to 65535, and is then itself |
| `PortSpec.NumberJoins` | src/jetty/orchestrator/config.py:616 | digits in front of others count ten times as much for each of those |
| `PortSpec.RaisesExactly` | src/jetty/orchestrator/config.py:613-630 | the parser raises instead of answering `None` if and only if its fields are all digits and one of them has a digit that is not decimal, or more digits than `int` takes |
| `PortSpec.SuperscriptRaises` | src/jetty/orchestrator/config.py:613-616 | one digit that is not decimal |
| `PortSpec.LongPortRaises` | src/jetty/orchestrator/config.py:613-616 | any valid port after as many zeros as `int` takes digits |
| `Ports.Kernel.TryBind` | src/jetty/orchestrator/ports.py:89-101 | the port is held on every family or, after undoing what was bound, on none, and a refusal was real |
| `Ports.BindAuto` | src/jetty/orchestrator/ports.py:104-123 | an automatic port is free on every family and differs from every candidate rejected before it, in this call or for an earlier port of the batch; failure means 64 different rejected candidates or a kernel with none |
| `Ports.Scan` | src/jetty/orchestrator/ports.py:148-166 | a range yields its least port that could be had when tried; failure means that every one was refused |
| `Ports.AllocatePorts` | src/jetty/orchestrator/ports.py:126-170 | for any kernel and any other processes: on every exit exactly the sockets held before are held; at one moment of the call exactly the ports handed out were held besides, each on every family; they are pairwise different and in their specs; no automatic candidate is picked twice in the whole batch; every error is a true one |
| `Console.SplitPieces` | src/jetty/orchestrator/console.py:62-66 | splitting loses and duplicates no byte, and no piece contains a newline |
| `Console.PiecesUnique` | src/jetty/orchestrator/console.py:62-66 | splitting is the only way of cutting a stream into newline-free pieces |
| `Console.SplitCut` | src/jetty/orchestrator/console.py:62-66 | cutting the stream in two splits the same way, with the pieces around the cut joined |
| `Console.TrimMeaning` | src/jetty/orchestrator/console.py:62-66 | trimming takes the carriage returns at the end of a line, all of them and nothing else |
| `Console.LineBuffer.Feed` | src/jetty/orchestrator/console.py:62-66 | the lines emitted so far are those of everything fed so far; the held partial has no newline |
| `Console.LineBuffer.Flush` | src/jetty/orchestrator/console.py:68-72 | what is left over completes the batch split |
| `Console.LineBuffer.Drain` | src/jetty/orchestrator/console.py:54-72 | for every way of cutting a stream into chunks, the lines emitted and flushed are those of splitting it at once |
| `AtomicFilesSteps.NeverModifiedInPlace` | src/jetty/modules/filesystem/local.py:173-203 | over any interleaving of any reads, writes, copies, renames and deletes, with any failures: no inode a non-temporary name has ever held is modified |
| `AtomicFilesSteps.ReadsAreWhole` | src/jetty/modules/filesystem/local.py:205-212 | every read returns all of one version that the name held at a moment between the call and its return, byte for byte what a writer supplied |
| `AtomicFilesSteps.CrashLeavesWholeFiles` | src/jetty/modules/filesystem/local.py:189-203 | a crash at any step leaves under every name a complete version it has held, fully on disk |
| `AtomicFilesSteps.WriteTakesEffectWhole` | src/jetty/modules/filesystem/local.py:188-196 | when a write takes effect its whole content is on disk with the bits of the file its stat found, and no other name changes |
| `AtomicFilesSteps.FailedWriteIsUnseen` | src/jetty/modules/filesystem/local.py:197-202 | the file of a failed write has never been under any non-temporary name |
| `AtomicFilesSteps.NothingLeftBehind` | src/jetty/modules/filesystem/local.py:188-202 | over any run in which unlinking a temporary file works, every temporary name belongs to a write still under way: no write, failed or not, leaves one behind |
| `LocalDriver.Disk.Read` | src/jetty/modules/filesystem/local.py:205-212 | a successful read is a version the path held since the call began; it fails only if a system call it made failed or the path held nothing at some moment since |
| `LocalDriver.Disk.OpenFresh` | src/jetty/modules/filesystem/local.py:161-171 | the loop ends with a temporary that nobody else has, unless a system call it made failed |
| `LocalDriver.Disk.Replace` | src/jetty/modules/filesystem/local.py:173-203 | it puts exactly the content under the name at some moment of the call, whole and on disk, unless a system call it made failed; its loops end |
| `LocalDriver.Disk.Copy` | src/jetty/modules/filesystem/local.py:294-309 | exactly one whole version of the source, held since the call began, is put under the destination, unless a system call it made failed or the source was missing |
| `LocalDriver.Disk.Relink` | src/jetty/modules/filesystem/local.py:278-292 | a rename that succeeds leaves what the source held under the destination, in one step, nothing under the source and every other name as it was, or, if both were the same file, all names as they were; a delete leaves nothing under the name and every other name as it was; either fails only if a system call it made failed or the name was missing |
| `Scratch.UnderRootMeaning` | src/jetty/modules/filesystem/local.py:91-94 | the text comparison admits exactly the root and what lies below it by whole segments, unless the root is `/`, of which it admits nothing but itself |
| `Scratch.NothingUnderSlash` | src/jetty/modules/filesystem/local.py:91-94 | a path refused although it lies under the root `/` |
| `Scratch.AdmittedExactly` | src/jetty/modules/filesystem/local.py:80-138 | a path is admitted if and only if it is under the root or its nearest recorded ancestor is now the owned real directory with the recorded identity |
| `Scratch.AdmittedIsOurs` | src/jetty/modules/filesystem/local.py:113-138 | over any run, with the environment replacing directories at will: what is admitted outside the root lies under a directory `mkdtemp` made in that run and has not removed, which still is that directory |
| `Scratch.MismatchRetires` | src/jetty/modules/filesystem/local.py:131-138 | a mismatch retires the record |
| `Scratch.RetiredStaysOut` | src/jetty/modules/filesystem/local.py:131-138 | once no record lies above a path it stays refused for the whole run until `mkdtemp` issues a directory above it |
| `Scratch.Authority.ScratchAncestor` | src/jetty/modules/filesystem/local.py:102-111 | the upward walk ends and finds the nearest record |
| `Scratch.Authority.ScratchAlive` | src/jetty/modules/filesystem/local.py:113-138 | alive exactly if the object there is the recorded one; otherwise the record goes |
| `Scratch.Authority.Resolve` | src/jetty/modules/filesystem/local.py:80-100 | admission and retirement as in the results above |
| `Scratch.Authority.DeleteDirectory` | src/jetty/modules/filesystem/local.py:218-240 | the record leaves exactly when the directory is removed |
| `Scratch.Authority.Mkdtemp` | src/jetty/modules/filesystem/local.py:242-253 | the new directory is recorded by identity |
| `Migrations.LedgerOnlyGrows` | src/jetty/modules/sql/sqlite.py:110-149 | over any run of any number of processes, failing or dying anywhere: positions stay 0 to n-1 with distinct names, the ledger only grows at its end, the content is what the committed transactions make of the initial one, and of the lists of any two calls that succeeded the earlier, by their last looks at the ledger, is a prefix of the later |
| `Migrations.RunAsAsked` | src/jetty/modules/sql/sqlite.py:124-140 | over any run every migration in the ledger is, statements and all, the one that the process that ran it had asked for at that place |
| `Migrations.FromEmpty` | src/jetty/modules/sql/sqlite.py:110-149 | the same from an empty database, spelled out |
| `Migrations.AtTheEnd` | src/jetty/modules/sql/sqlite.py:124-140 | a call that can insert its row inserts it at the end of the ledger |
| `Migrations.RunAllExactly` | src/jetty/modules/sql/sqlite.py:132-133 | statements run in a transaction take one content to another exactly if there are contents in between, one after each statement, and each statement takes one to the next |
| `Migrations.ReplayExplains` | src/jetty/modules/sql/sqlite.py:124-140 | the content there is comes from the initial one by executing every statement of every committed transaction, in order |
| `Migrations.ExplainedOnce` | src/jetty/modules/sql/sqlite.py:124-140 | and no other content does |
| `Migrations.CheckHistory` | src/jetty/modules/sql/sqlite.py:157-172 | a list is accepted exactly if its names are distinct and begin with the applied ones; every refusal is a true one |
| `Migrations.Database.ExecuteAll` | src/jetty/modules/sql/sqlite.py:96-108 | either every statement was executed, each on the content the one before it left, and the last one left what there is, or nothing has changed |
| `Migrations.Database.Migrate` | src/jetty/modules/sql/sqlite.py:110-149 | a call succeeds exactly if it is recorded as having, with its own list, which then was, in order, all there was in the ledger at its last look; whatever migration it ran is the one its list has at that place, and the content comes from executing every statement of every committed transaction; a refused list is refused by the names in the ledger at a moment of the call; a failure names a migration with everything before it applied, and it was refused for a reason: its statements do not run on the content there is, another process took its position or name, or the store failed that very transaction |
| `Tracker.HistoryReplays` | src/jetty/modules/issuetracker/mock.py:232-276 | over any run of calls with admitted fields, at any clock readings: folding the recorded changes over the fields at creation gives exactly the current scalars, `ccs` and `blocked_by`; no list holds a value twice; stamps strictly increase; comments are numbered 1 to n; the description is comment 1 |
| `Tracker.EditFaithful` | src/jetty/modules/issuetracker/mock.py:236-260 | the changes of one request say exactly what it did to the fields, and it is refused exactly if it names another field |
| `Tracker.EditGives` | src/jetty/modules/issuetracker/mock.py:246-260 | what an admitted request leaves in a list: what was there or was added, less what was removed, and no value twice |
| `Tracker.EditReached` | src/jetty/modules/issuetracker/mock.py:238-252 | a request does to the fields exactly what its part before the first refused field does |
| `Tracker.ModifyRecords` | src/jetty/modules/issuetracker/mock.py:262-276 | an admitted request adds its comment, if it has one, with the next number and the text given, and one update with exactly its changes, the number of that comment and a later stamp; none if it changed nothing and has no comment |
| `Tracker.ReplaysExactly` | src/jetty/modules/issuetracker/mock.py:238-256 | one modify keeps the history true if and only if its fields are admitted, or what it asks for before the first refused field is without effect: scalars set to what they are, nothing removed that is there, and nothing added that is not there unless the same request removes it again |
| `Tracker.RefusedModifyIsUnrecorded` | src/jetty/modules/issuetracker/mock.py:238-245 | a refused request that leaves an unrecorded change behind |
| `Tracker.KeepsAllExactly` | src/jetty/modules/issuetracker/mock.py:232-276 | with `hotlist_ids` left in, one call with admitted fields keeps a history that gives every field true if and only if it is no hotlist call that adds an id that is not there or removes one that is |
| `Tracker.HotlistsExactly` | src/jetty/modules/issuetracker/mock.py:359-374 | over any run: the history gives every field all along if and only if no hotlist call in it has an effect |
| `Tracker.HotlistsAreUnrecorded` | src/jetty/modules/issuetracker/mock.py:359-374 | such a call |
| `Tracker.IssueRecord.ModifyIssue` | src/jetty/modules/issuetracker/mock.py:232-276 | the loops over the issue in place compute the modify the results are about |
| `Tracker.IssueRecord.CreateComment` | src/jetty/modules/issuetracker/mock.py:318-328 | the comment, with the text given, is appended with the next number; the others stay |
| `Tracker.IssueRecord.UpdateComment` | src/jetty/modules/issuetracker/mock.py:337-350 | exactly that comment changes to the text given and keeps its number, and the description with comment 1; for a number there is not, nothing changes |
| `Tracker.IssueRecord.CreateRelationship` | src/jetty/modules/issuetracker/mock.py:279-297 | appended exactly if it is new |
| `Tracker.IssueRecord.CreateHotlistEntry` | src/jetty/modules/issuetracker/mock.py:359-366 | appended exactly if it is new |
| `Tracker.IssueRecord.DeleteHotlistEntry` | src/jetty/modules/issuetracker/mock.py:368-374 | removed exactly if it is there |
| `Tracker.HotlistGives` | src/jetty/modules/issuetracker/mock.py:359-374 | after adding, the id is in the list, and after removing it is not; all others stay, and nothing else of the issue changes |
| `Tracker.WithoutFirst` | src/jetty/modules/issuetracker/mock.py:256-260 | removing a value takes its first occurrence and keeps the order of the rest |
| `Listing.SortedIsStable` | src/jetty/modules/issuetracker/mock.py:210-213 | one `sort` call: the same rows, ordered by the key in its direction, those of one value in the order they had |
| `Listing.OrderedAsAsked` | src/jetty/modules/issuetracker/mock.py:209-213 | repeated stable sorts, least significant key first, give the lexicographic order of the whole list, ties by issue id |
| `Listing.OrderIsUnique` | src/jetty/modules/issuetracker/mock.py:209-213 | there is only one such list |
| `Listing.SortRows` | src/jetty/modules/issuetracker/mock.py:207-213 | the loop over the reversed order list does that |
| `Listing.FollowPages` | src/jetty/modules/issuetracker/mock.py:52-63 | following the page tokens with any page sizes visits every row exactly once, in order, and ends |
| `Listing.PageExactly` | src/jetty/modules/issuetracker/mock.py:52-63 | a page holds the rows from its offset on, as many as asked for, or 25 by default, or as there are; it names the next page, which starts where it ends, exactly if there are more; a token that is no number or is negative is refused |
| `Listing.ListAll` | src/jetty/modules/issuetracker/mock.py:207-215 | both together |

## Left out

- HTTP surfaces, routing, error envelopes, command-line printing and status tables.
- `/proc`, cgroups, `prctl` and systemd: a sweep signals the incarnation registered for the service's name.
- Subprocess pipes, log files and probes: readiness, timeouts and exit codes are events; draining never fails.
- The supervisor's final `kill_all`, its signal handlers and its instance record.
- Template rendering, and the scan of templates for binary names: which resolvers a service uses is part of the set-up.
- How a binary is copied, cached and pruned (`resolvers.py:55-140`): where the copy of a file is and what its
  fingerprint is are given with the run of the script, and so are the fingerprints of files that are not copied. A file
  stays what it is during one run.
- Cutting a script's output into lines and decoding it; more than a megabyte of it, which is cut off.
- Floating-point time: the services' clock and delays are real numbers, the gates' clock an integer; neither goes back,
  and later executions of one gate have later stamps.
- The signature of watched paths: a path watcher may decide to relaunch at any poll.
- Gates.GateSet.Check: what a check command does is not modelled; it may answer anything after any time.
- PinningRaces.AgreesExactly: does not cover services that may never be restarted, or not when they could not be
  started (127 in `no_restart_exit`); for them only `PinningPrompt.NotOvertakenAgrees` is stated. A resolver's script may
  run for any time, so its `timeout_seconds` does not appear in the condition, and which of the services that wait for
  a resolver runs it is left open.
- ServiceStop.StopMissesExactly: does not model the cgroup backend (`containment.py:130-161`), with which a process
  belongs to its group before it runs, so that a `stop` while it is being started kills it as well.
- The number of digits `int` takes is a parameter of `PortSpec`, 4300 by default in CPython, and which characters are
  digits, and their values, are given.
- Integer port specs, which need no parsing, and the validation of fixed duplicates when a config is loaded.
- The probe for which loopback families exist; a failure to create a socket at all, which leaks what was bound before.
- Ports.AllocatePorts: does not state global optimality; allocation is greedy in spec order.
- Decoding of bytes: any function from bytes to text, the same for stream and batch.
- Resolving symlinks: `realpath` is given, and the file set does not change while a config is loaded.
- AtomicFiles models one file system with regular files: directories, FIFOs, `EXDEV`, permission rules and changes by
  programs outside this driver are not part of the model; any call may fail for any reason.
- The `created` flag of a write, which is not reliable when calls interleave.
- LocalDriver.Disk.Replace: does not say which files a crash loses, since the directory is never synced; either the old
  or the new version is under the name.
- Statements inside a migration that control transactions themselves or touch the ledger table.
- Exceptions other than `sqlite3.Error`, for which nothing is rolled back (`sqlite.py:105`, `sqlite.py:140`).
- `ping`, `query` and value conversion of the SQLite driver.
- The query grammar, components, attachments and the seeding of the issue tracker's mock; one issue at a time is
  modelled, since every call changes one.
- Values of sort fields are integers standing for their order; parsing of page tokens is given.
- The SQL dialect gate, `hg`, the chat mock, the LLM relay and the `fsspec` client.

Nothing in the repository was executed; all of the above comes from reading it.
