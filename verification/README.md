# Driveshaft: a verified model of its control plane

Driveshaft is a gearman worker manager. One main thread reads a configuration again and again and
reconciles it with detached worker threads; the workers register themselves, work, notice that
they should stop, and unregister on their own schedule. This project models that protocol in Dafny
and proves what it promises over every run: every interleaving, every sequence of configurations,
every reply of the libraries.

`dafny verify dfyconfig.toml` checks everything.

## How the model is built

| file | content |
|---|---|
| `Common.dfy` | 32-bit counts, options, a fact about finite sets |
| `Registry.dfy` | the thread registry: its methods as functions on values, and the class |
| `Configs.dfy`, `ConfigParser.dfy` | configurations, their difference, the stream of directives, parsing |
| `Metrics.dfy`, `Jobs.dfy` | gauges, counters, the per-thread wrapper, job outcomes |
| `Client.dfy`, `ThreadLoop.dfy` | the gearman client's state machine and the loop with its retries |
| `Protocol.dfy` | the whole control plane as one transition system |
| `Handshake.dfy`, `Reconcile.dfy` | its inductive invariants |
| `Guarantees.dfy`, `Progress.dfy`, `Convergence.dfy` | the theorems over runs: safety, the start handshake, how pools follow the configuration |
| `Calls.dfy`, `Sums.dfy`, `GaugeLaw.dfy`, `JobLaw.dfy` | the theorems over runs: the client inside the protocol, gauges, job counters |
| `Witnesses.dfy` | runs that show where the code falls short |
| `MainLoop.dfy` | the main thread's code written out, with the workers' interference as a method |

Objects that the original mutates are classes, proved against functions on values. The transition
system takes its atomic steps from the same functions, so that what is proved about runs is about
the same registry operations, gauges, directives and return-code tables as the classes. In it, a
registry method is one step (the original holds one mutex throughout); the start mutex, the
condition variable, the wakeup flag, the force flag and every single gauge or counter update are
steps of their own. The environment is part of the actions: schedules, spurious wakeups, thread identifiers
(recycled freely once a thread has ended), loaded configurations, library replies, and a failure
to load or to start a thread. A process that dies takes no further step.

A few fields only record the run and are read by no thread: how often the configuration changed
(`epoch`, also stamped on each thread), threads spawned and registered, the largest count directed
at each pool, the library's calls and replies of each thread, the jobs begun, the jobs ended with
what curl and the endpoint replied, and threads that ended in the middle of a job.

Maps and sets are walked in any order; the original walks them sorted. Counts are `uint32`:
narrowing and the wrap of a 32-bit counter are written out, and capacity safety shows that no
count is ever narrowed.

Where the code and its documentation differ, the model follows the code:

- The design notes promise that `worker_count` threads are maintained. The stop of a surplus marks
  that many threads whoever they are, although threads already draining were counted too and
  threads may have left since the count. `Convergence.StopLeavesEnough` gives the exact condition
  under which enough threads are left, and `Witnesses.DrainingCostsTheOther` and
  `Witnesses.LeavingCostsTheOther` are runs that end with no thread that will go on where one is
  wanted, one for each of the two reasons.
- The design notes promise that new threads are created as needed when the configuration changes.
  `Convergence.PassOutcome` gives the exact number of unmarked threads after any pass that nobody
  leaves. By `Convergence.RestartRunsDry` a pool whose servers, jobs or URI change while its count
  does not ends the pass with all its threads marked and none started in their place; those come
  in later passes, as the draining threads leave. `Witnesses.RestartLeavesNobody` is such a run.
- A thread that ends in the middle of a job stays in the gauges for good.
  `Client.LostConnectionDrifts` and `Witnesses.GaugeOutlivesThread` show it, and
  `Client.EndBalances` and `GaugeLaw.PoolTotal` state the exact drift.
- The metrics' help text says that errors include HTTP errors and timeouts. Each of those is
  counted before its error is, so that a reading in between may show more of them, as
  `Witnesses.FailureBeforeError` shows; `JobLaw.AccountedRun` has the exact law and
  `JobLaw.ErrorsIncludeTheRest` says exactly when the text is true.
- The documentation calls the second status of `driveshaft_threads` "busy"; the code, "working".
- A job name in `jobs_list` that is not a string is reported in the log and then converted.

## Model

| member | source | states |
|---|---|---|
| `Registry.ThreadRegistry.RegisterThread` | src/thread-registry.cpp:46-57 | succeeds exactly when the identifier is in neither index, and then files it in both; what a failed assertion leaves behind |
| `Registry.ThreadRegistry.UnregisterThread` | src/thread-registry.cpp:59-70 | succeeds exactly when the identifier is in both indexes, and then removes it from both |
| `Registry.ThreadRegistry.CountPool` | src/thread-registry.cpp:72-78 | the pool's size narrowed to 32 bits; files an empty pool under a new name |
| `Registry.ThreadRegistry.SendShutdown` | src/thread-registry.cpp:80-103 | never fails on agreeing indexes; marks exactly min(count, unmarked) unmarked members, or all of them for a count of zero, changes nothing else about any thread, and reports whether there were enough |
| `Registry.ThreadRegistry.MarkSome` | src/thread-registry.cpp:86-102 | the same through the loop, its 32-bit counter and its early exit |
| `Registry.ThreadRegistry.ShouldShutdown` | src/thread-registry.cpp:105-112 | the thread's mark, or a failed assertion exactly for an unknown thread |
| `Registry.ThreadRegistry.SetThreadState` | src/thread-registry.cpp:114-121 | sets the note and nothing else, or fails exactly for an unknown thread |
| `Registry.ThreadRegistry.Destroy` | src/thread-registry.cpp:42-44 | the destructor's assertion holds exactly when nobody is registered |
| `Registry.AgreeRegister` | src/thread-registry.cpp:46-57 | on agreeing indexes registration fails exactly for a registered thread, keeps agreement and adds to one pool only |
| `Registry.AgreeUnregister` | src/thread-registry.cpp:59-70 | on agreeing indexes unregistration fails exactly for a thread not registered in that pool, keeps agreement and removes from one pool only |
| `Registry.IndexesPartition` | src/thread-registry.h:39-51 | agreeing indexes: pools are disjoint, together they are the registered threads, and their sizes add up to the size of the map |
| `Registry.ShutdownEffect` | src/thread-registry.cpp:85-98 | exactly min(quota, unmarked) members become marked, other pools are untouched, no mark is lost, and a quota of at least the pool marks all of it |
| `Configs.DriveshaftConfig.Compare` | src/driveshaft-config.cpp:95-149 | the set differences and the loop compute the pools that one side has and the other lacks or runs with other data; the second result is the first with the sides swapped |
| `Configs.NothingOutdated` | src/driveshaft-config.cpp:95-149 | both results are empty exactly when pool names, URIs and job sets agree and servers agree or there is no pool |
| `Configs.OutdatedIgnoresCounts` | src/driveshaft-config.cpp:121-144 | the comparison comes out the same whatever worker counts the two sides are given |
| `Configs.DriveshaftConfig.ClearWorkerCount` | src/driveshaft-config.cpp:76-87 | fails exactly for an unknown pool; otherwise sets its count to zero, keeps everything else, and sends one directive with count zero, the configuration's servers and the pool's own jobs and URI |
| `Configs.DriveshaftConfig.ClearAllWorkerCounts` | src/driveshaft-config.cpp:89-93 | sets every count to zero, keeps everything else, and sends one such directive for each pool |
| `Configs.DriveshaftConfig.Supersede` | src/driveshaft-config.cpp:61-74 | never hits the missing pool; sends zero directives for exactly the outdated pools with the old servers, jobs and URI, then each new pool once with its count and the new servers, jobs and URI |
| `Configs.SupersedeSettles` | src/driveshaft-config.cpp:61-74 | with the last directive winning, the stream ends with the new counts on new pools, zero on dropped ones, and no change to pools that neither side names, from any counts before |
| `Configs.SurvivorCleared` | src/driveshaft-config.cpp:104-145 | a pool on both sides is cleared before its announcement exactly when servers, URI or jobs changed |
| `Configs.SupersedeSelf` | src/driveshaft-config.cpp:61-74 | a configuration superseding itself clears nothing |
| `ConfigParser.ParseConfig` | src/driveshaft-config.cpp:36-59 | succeeds exactly on the trees with the required members of the required kinds, counts from 0 to 2^32 - 1, and then fills in the one configuration that the tree describes |
| `ConfigParser.ParseServerList` | src/driveshaft-config.cpp:151-163 | the set of listed strings; fails exactly when something else is listed |
| `ConfigParser.ParsePoolList` | src/driveshaft-config.cpp:165-209 | each pool with its count, URI and converted job names; fails exactly when a pool is malformed or a job name has no conversion |
| `ConfigParser.DescribesOne` | src/driveshaft-config.cpp:151-209 | a tree describes at most one configuration |
| `ConfigParser.DescribesExactly` | src/driveshaft-config.cpp:151-267 | a tree describes a configuration exactly when it has the members by name and kind, with anything else ignored, and then the one that they spell |
| `ConfigParser.ConfigRoundTrip` | src/driveshaft-config.cpp:9-15 | every configuration, zero counts included, can be written as a tree, which describes it and no other |
| `Metrics.MetricProxyPoolWrapper.ReportThreadEnded` | src/metric-proxy.h:146-154 | takes the idle unit out if the stack is empty, and otherwise only completes the top job |
| `Metrics.MetricProxyPoolWrapper.ReportThreadStartingWork` | src/metric-proxy.h:156-159 | one working more and one idle less for the function, which is pushed |
| `Metrics.MetricProxyPoolWrapper.ReportThreadWorkComplete` | src/metric-proxy.h:161-167 | undoes that for the top of the stack; nothing on an empty stack |
| `Metrics.MetricProxy.ReportThreadStartingWork` | src/metric-proxy.cpp:78-88 | one more at work on that function of that pool and one less idle in that pool; every other label reads as before |
| `Metrics.MetricProxy.ReportThreadWorkComplete` | src/metric-proxy.cpp:90-100 | one less at work on that function of that pool and one more idle in that pool; every other label reads as before |
| `Metrics.WorkRoundTrip` | src/metric-proxy.cpp:78-100 | completing a job undoes the start of it on every label |
| `Metrics.CompleteUndoesStart` | src/metric-proxy.h:156-167 | completing work undoes the latest start, on the stack and on every label |
| `Jobs.JobAccounting` | src/gearman-client.cpp:288-347 | over any sequence of jobs of any pools: each of the four counters grows by the number of jobs whose exchange ended its way, so successes plus errors are the jobs processed, and timeouts plus HTTP errors over all statuses are at most the errors |
| `Jobs.CountJobReads` | src/gearman-client.cpp:288-347 | what one job adds to each of the four totals of each pool and function, by what curl and the endpoint replied |
| `Jobs.OutcomeDecided` | src/gearman-client.cpp:192-338 | each exchange ends in exactly one of the four ways, which decides the outcome with its status or answer |
| `Client.GearmanClient.ProcessJob` | src/gearman-client.cpp:167-348 | starts the function's gauge; counts a timeout exactly for a transfer aborted by the callback, an HTTP error under the status narrowed to 16 bits exactly for a status other than 200, a success exactly for a well-formed answer with 200, an error in every other case, and no other label; answers with the endpoint's code and text appended, or fails with the caller's string unchanged; cleans up exactly once |
| `Client.GearmanClient.Run` | src/gearman-client.cpp:350-420 | result, next state, gauges, counters, library calls and the note in the registry of one call, for every script of replies, and which return code of the last call leads to which result |
| `Client.RunDiscipline` | src/gearman-client.cpp:350-420 | one call makes chained library calls; it returns exactly after a work call with one of the seven completing codes or a wait timeout, throws, never retriably, exactly after a code outside those and the two that ask to wait, or a wait code other than success and timeout, and is blocked otherwise; the state it leaves |
| `Client.SessionDiscipline` | src/gearman-client.cpp:350-420 | the same over repeated calls |
| `Client.BetweenWorkCalls` | src/gearman-client.cpp:356-417 | between two work calls: a completed job, or a request to wait, wait timeouts and one successful wait |
| `Client.SessionReply` | src/gearman-client.cpp:350-420 | a session blocked in a library call goes on, with the reply, exactly as that one call would |
| `Client.RunConsumes` | src/gearman-client.cpp:350-420 | one call takes the replies in order, all of them if it is still blocked, and processes exactly the jobs that its work calls handed out |
| `Client.SessionBalances` | src/metric-proxy.h:142-167 | over any session the gauges differ from those of an idle thread by exactly the thread's stack |
| `Client.EndBalances` | src/metric-proxy.h:146-154 | ending the thread takes its unit out of the gauges exactly when the stack is empty; otherwise the unit stays |
| `Client.LostConnectionDrifts` | src/gearman-client.cpp:379-385 | an idle thread whose work call runs a job and then reports a lost connection ends with every gauge as if it were still idle |
| `Client.RunTidy` | src/gearman-client.cpp:356-394 | if work calls run at most one job and complete it, every call leaves the stack empty |
| `ThreadLoop.Run` | src/thread-loop.cpp:48-80 | for any client: at most six attempts, one more than the retriable exceptions met, given up exactly after six of them; which end each last turn explains |
| `ThreadLoop.RunClient` | src/thread-loop.cpp:51-80 | with the real client exactly one attempt, for every script |
| `Handshake.WorkerEffect` | src/thread-loop.cpp:31-46 | every step of a worker changes registry, mutex, wakeup flag and main's wait as its stage says, and fails no assertion |
| `Handshake.RegistryStep` | src/thread-registry.cpp:46-121 | a worker's registry call succeeds at every point of its life where it makes one, and adds, removes or keeps its registration and nothing else |
| `Handshake.StopSucceeds` | src/thread-registry.cpp:88-89 | the assertion in the walk of a stop holds: every member of the pool has a record |
| `Handshake.FailsExactly` | src/thread-registry.cpp:42-121 | in any state, reachable or not, a step fails exactly when the registry call in it meets its assertion |
| `Reconcile.InvRun` | src/main-loop.cpp:81-176 | the whole invariant holds in every state of every run |
| `Reconcile.ClearMarksAll` | src/main-loop.cpp:84-88 | clearing a pool marks all of it, whoever left between counting and marking |
| `Guarantees.RegistrySound` | src/thread-registry.cpp:42-121 | in every state no assertion has failed, the indexes partition the registered threads, and those are exactly the live threads between registration and unregistration |
| `Guarantees.ReleasedWhenEmpty` | src/main-loop.cpp:62-72 | when the last reference to the registry is gone nobody is registered |
| `Guarantees.FreshIdentifiers` | src/thread-registry.cpp:51-56 | an identifier given to a new thread, recycled or not, is in neither index |
| `Guarantees.MarksStay` | src/thread-registry.cpp:91-92 | a mark stays until the thread unregisters |
| `Guarantees.NoStaleWorkers` | src/main-loop.cpp:168-172 | between passes every unmarked registered thread is in a pool of the configuration and was started with its servers, jobs and URI |
| `Guarantees.ClearedPool` | src/driveshaft-config.cpp:76-87 | when main is done clearing a pool, all its threads are marked |
| `Guarantees.RegistrationFits` | src/main-loop.cpp:89-104 | a registration leaves the pool within the count being applied, draining threads included |
| `Guarantees.CapacitySafety` | src/main-loop.cpp:84-104 | no pool ever exceeds the largest count any loaded configuration asks of it, and the narrowed count is exact |
| `Guarantees.NoChurn` | src/main-loop.cpp:85-104 | no thread started under the current configuration has been marked, and its pool has no more than it should |
| `Guarantees.CandidatesShrink` | src/main-loop.cpp:154-175 | while the configuration stays, only threads that predate it get marked, and the set of those that still can only shrinks |
| `Guarantees.StaysLeftAlone` | src/main-loop.cpp:84-105 | a pool at or below its count that is not to be cleared or stopped stays so while the configuration does, whenever its threads were started: no stop is sent to it and none of its threads is marked |
| `Guarantees.TotalShutdown` | src/main-loop.cpp:143-147 | after shutdown has informed every pool, every registered thread is marked and none is under construction |
| `Guarantees.ShutDownStep` | src/thread-loop.cpp:58-67 | from then on nothing starts, no check lets a thread run again, and each step outside the current call of the client takes its thread closer to its end |
| `Guarantees.NothingStartsAfterShutdown` | src/main-loop.cpp:143-147 | the same over the rest of the run |
| `Guarantees.ShutDownBounded` | src/thread-loop.cpp:43-67 | over any stretch after shutdown the steps taken outside calls of the client, by all threads together, are at most the sum of their distances from the end |
| `Guarantees.ShutDownNeverStuck` | src/thread-loop.cpp:43-67 | and a thread outside such a call can always take one |
| `Guarantees.OneLastRun` | src/thread-loop.cpp:58-67 | once the force flag is set, a thread between its two checks has been there ever since |
| `Guarantees.AtMostOneLastRun` | src/thread-loop.cpp:58-67 | so it begins at most one more call of the client |
| `Guarantees.MarkedNeverRuns` | src/thread-loop.cpp:58-67 | a marked thread begins no further call of the client |
| `Guarantees.MainEnds` | src/main-loop.cpp:143-176 | a failed load, a thread that cannot be started and the end of shutdown take main out of its loop for good; it only lets go of the registry then, and no thread joins |
| `Progress.OneAtATime` | src/main-loop.cpp:62-68 | at most one thread is under construction, the one main waits for |
| `Progress.WaitsForRegistration` | src/main-loop.cpp:92-104 | main passes its wait only when every thread spawned so far has registered |
| `Progress.NoLostWakeup` | src/main-loop.cpp:67-69 | if main sleeps although its thread has signalled, the notification is still to come |
| `Progress.HandshakeAdvances` | src/main-loop.cpp:93-103 | every step of the handshake passes the wait or decreases a measure |
| `Progress.HandshakeNeverStuck` | src/main-loop.cpp:93-103 | in every waiting state main or its thread can take such a step |
| `Progress.HandshakeCompletes` | src/main-loop.cpp:93-103 | from every waiting state the two alone can bring main past its wait, within the measure |
| `Progress.HandshakeBounded` | src/main-loop.cpp:67-103 | over any stretch of waiting for one thread, whatever the others do: the steps of the handshake are at most what was left of it plus two for each spurious wakeup or notification of another thread |
| `Progress.HandshakeStartsOne` | src/main-loop.cpp:92-104 | from a spawn to the end of the wait for it, whatever the other threads do: exactly one registration, nobody new in the registry but that thread, unmarked and with the directive's data, and nobody marked |
| `Progress.MainNeverStuck` | src/main-loop.cpp:81-176 | in every state of every run main can go on or the thread it waits for can; between passes it can begin a pass over any configuration, or the shutdown |
| `Progress.WorkersNeverStuck` | src/gearman-client.cpp:350-420 | in every state of every run each thread takes whatever job, outcome or code comes next, and otherwise can go on, a new thread at the latest when main releases the mutex |
| `Convergence.StopLeavesEnough` | src/main-loop.cpp:84-88 | in every state of the protocol in which the surplus is about to be stopped: the stop leaves at most the asked number unmarked, and exactly it if and only if none is asked or all the threads counted are still there and unmarked; it leaves none exactly when no more than the surplus are unmarked |
| `Convergence.CappedRun` | src/main-loop.cpp:81-106 | in every run a pool that main is done with in a pass has at most its worker count of unmarked threads |
| `Convergence.NeverAbove` | README.md:117-118 | between passes of every run no pool has more unmarked threads than the configuration wants, none if it does not name the pool |
| `Convergence.PassOutcome` | src/driveshaft-config.cpp:61-74 | a pass over any configuration, from any state, during which no thread of the pool leaves: the exact number of unmarked threads it ends with, from the pool's size, its unmarked threads and whether it is restarted |
| `Convergence.ConvergesInOnePass` | src/main-loop.cpp:154-175 | such a pass ends with the configured number unmarked if and only if that is none, the pool was empty, or it is not restarted and nobody in it was draining |
| `Convergence.RestartRunsDry` | README.md:122-126 | a restarted pool ends such a pass without unmarked threads exactly when it had at least as many threads as are wanted |
| `Witnesses.DrainingCostsTheOther` | src/main-loop.cpp:84-88 | a run in which a draining thread is counted as surplus and the last unmarked one is marked, with one wanted |
| `Witnesses.LeavingCostsTheOther` | src/main-loop.cpp:84-88 | a run in which a thread leaves between count and stop and the last unmarked one is marked, with one wanted and nobody draining before |
| `Witnesses.RestartLeavesNobody` | src/driveshaft-config.cpp:61-74 | for every changed URI, a run in which a pool with as many threads as wanted is restarted and the pass ends with all of them marked and none started |
| `Witnesses.FailureBeforeError` | src/gearman-client.cpp:291-302 | for every function and every job that times out or meets an HTTP error, a run to a state in which that is counted and no error is |
| `Witnesses.GaugeOutlivesThread` | src/metric-proxy.h:146-154 | for every function and job outcome, a run that ends with no thread at all and an idle gauge of one |
| `Calls.SessionRun` | src/thread-loop.cpp:57-67 | in every state of every run each thread's library calls, client state, stack and note are those of a session of the client on the replies it received; it ends cleanly exactly when that session's stack is empty |
| `Calls.CallDiscipline` | src/gearman-client.cpp:350-420 | in every run every thread waits properly between its work calls |
| `Calls.NeverUnready` | src/gearman-client.cpp:353-354 | in every run no thread enters the client's `run` in its initial state |
| `Calls.NotedRun` | src/thread-registry.cpp:114-121 | in every run the record of each registered thread shows the last note that the thread wrote |
| `Calls.IdleThreadsShow` | src/gearman-client.cpp:374-376 | a thread between two calls of the client's `run` shows as waiting for work unless it is polling |
| `Calls.JobShows` | src/gearman-client.cpp:189-190 | from the start of a job its thread's record shows that job's note |
| `Calls.LeavesForReason` | src/thread-loop.cpp:57-79 | in every run a thread leaves its loop exactly when its check sees the force flag or its mark, or a library call returns a code that `run` throws on |
| `GaugeLaw.ShareStep` | src/metric-proxy.cpp:78-112 | each step changes each gauge by as much as it changes the thread's share |
| `GaugeLaw.LawRun` | src/metric-proxy.cpp:78-112 | in every state, in the middle of reports too, each gauge is the sum of the live threads' shares and of what threads ended in the middle of a job left behind |
| `GaugeLaw.PoolTotal` | src/metric-proxy.h:142-167 | idle plus working is live threads plus threads ever ended in the middle of a job |
| `GaugeLaw.AllEnded` | src/metric-proxy.h:146-154 | after all threads have ended only that residue is left |
| `GaugeLaw.GaugesConserved` | src/gearman-client.cpp:189-190 | with a library that runs at most one job per call and completes it: depth at most one, empty between calls, no residue, all zero at the end |
| `JobLaw.AccountedRun` | src/gearman-client.cpp:288-347 | in every state of every run: successes, timeouts and HTTP errors are the jobs ended so, by their exchange; errors and threads between their two reports are all the failures; successes, errors and threads at a job add up to the jobs begun |
| `JobLaw.LabelledRun` | src/metric-proxy.cpp:57-64 | and the HTTP errors under each status label are the jobs refused with a status that is that label in 16 bits |
| `JobLaw.ErrorsIncludeTheRest` | src/metric-proxy.h:102-105 | timeouts and HTTP errors are at most the errors if and only if the threads between their two reports are no more than the failures of other kinds; they never exceed the errors by more than those threads; with no job in progress every job begun is a success or an error |
| `MainLoop.ThreadPoolWatcher.Inform` | src/main-loop.cpp:81-106 | with workers leaving before the count, between count and stop, between starts and afterwards: exactly the missing number is started, or exactly min(surplus, unmarked) are marked and none started; whoever was counted or started is there or has left since; at most the count is unmarked; other pools only lose threads |
| `MainLoop.ThreadPoolWatcher.StartThread` | src/main-loop.cpp:92-104 | exactly one thread is started, with the directive's data, and is registered or has left again; nobody is marked |
| `MainLoop.MovesRely` | src/main-loop.cpp:84-104 | the interference assumed there covers every step of a registered worker of the transition system |
| `MainLoop.Driver.Pass` | src/main-loop.cpp:168-174 | with workers leaving at any point: the stream of directives is that of the new configuration superseding the old; every unmarked thread then fits the new one; each of its pools gets as many started as make up the count with those that had not left when it was taken, and no more, and at most the count is unmarked; nothing is started in other pools |
| `MainLoop.Driver.DoShutdown` | src/main-loop.cpp:143-147 | with workers leaving at any point: the force flag is set, each pool of the configuration gets one zero directive, every registered thread ends up marked and none is started |
| `MainLoop.Driver.Run` | src/main-loop.cpp:149-176 | for any configurations loaded before the request to stop, with workers leaving at any point: each load has its turn, in order, with its own stream of directives and what a pass promises from the crew that the turn before left; then the last configuration is shut down, and nothing else is ever sent; every registered thread ends up marked |

## Left out

- Reading the configuration file and its modification time: a pass takes any configuration, the empty one included, and a failure to load ends the loop.
- The JSON text parser and `isMember` on a root that is not an object: parsing starts from a tree, and such a root describes no configuration.
- The individual curl options and form fields of a job: one choice, set up or not.
- The bodies of the curl callbacks, which move bytes; the abort that the progress callback asks for is one of curl's replies.
- Durations, sleeps and timeouts in seconds: no claim about real time is made.
- Signal delivery: a shutdown request may be seen at any turn of the main loop.
- `getThreadMap` copies the map out; logging and the prometheus exporter only write; of the duration histogram the model keeps the number of observations and not their buckets.
- `src/main.cpp` and `src/pidfile.cpp`: options, daemon, user and pid file.
- Exceptions from a client's constructor: they end the process, as the thread's entry function is `noexcept`.
- MainLoop.ThreadPoolWatcher.StartThread: shows the handshake only by its effect on the registry; its steps are in the transition system, where `Progress.HandshakeStartsOne` proves the same effect of them.
- MainLoop.Driver.Pass: the directives are collected before they are relayed; `supersede` reads nothing back from the watcher, so the order of effects is the same.
