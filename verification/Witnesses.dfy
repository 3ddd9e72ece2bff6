/**
 Runs of the program, from its start, that show where it falls short of what one would expect: a
 pool left with no thread that will go on although one is wanted, a gauge that shows a thread when
 there is none, and counters that show a failure before they show an error.
 */
module Witnesses {
  import opened Common
  import opened Registry
  import opened Configs
  import opened Metrics
  import opened Jobs
  import opened Client
  import opened Protocol
  import opened Handshake
  import opened Reconcile
  import opened JobLaw

  ghost predicate EndsAt(states: seq<Sys>, actions: seq<Action>, s: Sys) {
    Behaviour(states, actions) && states[|actions|] == s
  }

  /** Some run of the program passes through the state. */
  ghost predicate Reachable(s: Sys) {
    exists states, actions :: EndsAt(states, actions, s)
  }

  lemma Start() returns (s: Sys)
    ensures Reachable(s) && IsStart(s)
  {
    s := Sys(EMPTY_REGISTRY, map[], MainThread(AtTop, EMPTY_CONFIG, EMPTY_CONFIG, [], [], ReadCount),
             Free, WakeInit, false, ZERO_GAUGES, ZERO_COUNTERS,
             History(0, 0, 0, map[], [], map[], []), false);
    assert EndsAt([s], [], s);
  }

  lemma Take(s: Sys, a: Action) returns (s': Sys)
    requires Reachable(s) && Enabled(s, a)
    ensures Reachable(s') && s' == Apply(s, a)
  {
    var states, actions :| EndsAt(states, actions, s);
    s' := Apply(s, a);
    var states', actions' := states + [s'], actions + [a];
    forall i: nat | i < |actions'|
      ensures StepAt(states', actions', i)
    {
      if i < |actions| {
        assert StepAt(states, actions, i);
      }
    }
    assert EndsAt(states', actions', s');
  }

  lemma ReachableInv(s: Sys)
    requires Reachable(s)
    ensures Inv(s)
  {
    var states, actions :| EndsAt(states, actions, s);
    InvRun(states, actions, |actions|);
  }

  // ----- the building blocks

  lemma WorkerTakes(s: Sys, t: Tid, move: Move) returns (s': Sys)
    requires Reachable(s) && !s.failed && WorkerEnabled(s, t, move) && !s.workers[t].pc.Ended?
    ensures Reachable(s') && NextRegistry(s.reg, t, s.workers[t], move).Some?
    ensures var w := s.workers[t];
            s' == Install(s, t, NextRegistry(s.reg, t, w, move).value, NextWorker(w, move, s.force, Marked(s, t)),
                          NextGauges(s.gauges, w), NextCounters(s.counters, w, move), NextHistory(s.hist, w, move))
  {
    ReachableInv(s);
    RegistryStep(s.reg, t, s.workers[t], move);
    s' := Take(s, Act(t, move));
  }

  /** Main is in its start loop with `left` threads to go, and nobody is in its way. */
  ghost predicate Poised(s: Sys, left: nat) {
    && Reachable(s) && !s.failed && s.mutex == Free && !s.force
    && s.main.phase == Passing && Informing(s.main) && s.main.inform == TakeLock(left)
  }

  ghost function Newcomer(s: Sys, pc: Pc): Worker
    requires Informing(s.main)
  {
    var d := Current(s.main);
    Worker(d.pool, d.data, pc, if pc.Spawned? || pc.Building? then ClientState.Init else GrabJob, [],
           if PreRegistered(pc) then "" else if pc.Registered? then STARTING_NOTE else IDLE_NOTE,
           [], [], [], s.hist.epoch)
  }

  /** Main spawns a thread and goes to sleep. */
  lemma Sleeps(s: Sys, t: Tid, left: nat) returns (s': Sys)
    requires Poised(s, left) && left > 0 && t !in s.workers
    ensures Reachable(s')
    ensures s' == s.(workers := s.workers[t := Newcomer(s, Spawned)], wakeup := WakeInit,
                     main := s.main.(inform := Asleep(left, t)),
                     hist := s.hist.(spawns := s.hist.spawns + 1))
  {
    s' := Take(s, Go);
    s' := Take(s', Go);
    s' := Take(s', Spawn(t));
    s' := Take(s', Go);
  }

  function Enrolled(r: RegistryState, pool: string, t: Tid, note: string): RegistryState {
    RegistryState(r.threads[t := ThreadData(pool, false, note)], r.store[pool := Members(r, pool) + {t}])
  }

  lemma EnrolledMembers(s: Sys, pool: string, t: Tid)
    requires Reachable(s) && t !in s.workers
    ensures var r := Enrolled(s.reg, pool, t, IDLE_NOTE);
            Members(r, pool) == Members(s.reg, pool) + {t} && Unmarked(r, pool) == Unmarked(s.reg, pool) + {t}
  {
    ReachableInv(s);
    MembersAgree(s.reg, pool, t);
  }

  /** The thread gets its client built. */
  lemma Builds(s: Sys, t: Tid) returns (s': Sys)
    requires Reachable(s) && !s.failed && s.mutex == Free && Informing(s.main) && t in s.workers
    requires s.workers[t] == Newcomer(s, Spawned)
    ensures Reachable(s')
    ensures s' == s.(workers := s.workers[t := Newcomer(s, Built)], mutex := ByWorker(t),
                     gauges := AddIdle(s.gauges, s.workers[t].pool, 1))
  {
    s' := WorkerTakes(s, t, Proceed);
    s' := WorkerTakes(s', t, Proceed);
  }

  /** It registers and leaves its note. */
  lemma Registers(s: Sys, t: Tid) returns (s': Sys)
    requires Reachable(s) && !s.failed && Informing(s.main) && t in s.workers
    requires s.workers[t] == Newcomer(s, Built)
    ensures Reachable(s')
    ensures s' == s.(workers := s.workers[t := Newcomer(s, Ready)],
                     reg := Enrolled(s.reg, s.workers[t].pool, t, IDLE_NOTE),
                     hist := s.hist.(registrations := s.hist.registrations + 1))
  {
    s' := WorkerTakes(s, t, Proceed);
    assert s'.reg == Enrolled(s.reg, s.workers[t].pool, t, STARTING_NOTE);
    s' := WorkerTakes(s', t, Proceed);
    assert s'.reg == Enrolled(s.reg, s.workers[t].pool, t, IDLE_NOTE);
  }

  /** It signals, and its notification wakes main. */
  lemma Signals(s: Sys, t: Tid, left: nat) returns (s': Sys)
    requires Reachable(s) && !s.failed && Informing(s.main) && t in s.workers && s.mutex == ByWorker(t)
    requires s.main.inform == Asleep(left, t) && s.workers[t] == Newcomer(s, Ready)
    ensures Reachable(s')
    ensures s' == s.(workers := s.workers[t := Newcomer(s, CheckForce)], mutex := Free, wakeup := WakeSuccess,
                     main := s.main.(inform := Woken(left, t)))
  {
    s' := WorkerTakes(s, t, Proceed);
    s' := WorkerTakes(s', t, Proceed);
    s' := WorkerTakes(s', t, Proceed);
  }

  /** Main goes on to the next thread. */
  lemma Wakes(s: Sys, t: Tid, left: nat) returns (s': Sys)
    requires Reachable(s) && !s.failed && s.main.phase == Passing && Informing(s.main)
    requires s.main.inform == Woken(left, t) && left > 0 && s.mutex == Free && s.wakeup == WakeSuccess
    ensures Reachable(s') && s' == s.(main := s.main.(inform := TakeLock(left - 1)))
  {
    s' := Take(s, Go);
    s' := Take(s', Go);
    s' := Take(s', Go);
    s' := Take(s', Go);
  }

  lemma Joins(s: Sys, t: Tid, left: nat) returns (s': Sys)
    requires Reachable(s) && !s.failed && s.main.phase == Passing && Informing(s.main) && t in s.workers
    requires s.mutex == ByWorker(t) && s.main.inform == Asleep(left, t) && left > 0
    requires s.workers[t] == Newcomer(s, Ready)
    ensures Reachable(s')
    ensures s' == s.(workers := s.workers[t := Newcomer(s, CheckForce)], mutex := Free, wakeup := WakeSuccess,
                     main := s.main.(inform := TakeLock(left - 1)))
  {
    s' := Signals(s, t, left);
    s' := Wakes(s', t, left);
  }

  /** Main sleeps until the thread that it spawned is ready to signal. */
  lemma Constructs(s: Sys, t: Tid, left: nat) returns (s': Sys)
    requires Poised(s, left) && left > 0 && t !in s.workers
    ensures Reachable(s')
    ensures s' == s.(workers := s.workers[t := Newcomer(s, Ready)], wakeup := WakeInit, mutex := ByWorker(t),
                     main := s.main.(inform := Asleep(left, t)),
                     reg := Enrolled(s.reg, Current(s.main).pool, t, IDLE_NOTE),
                     gauges := AddIdle(s.gauges, Current(s.main).pool, 1),
                     hist := s.hist.(spawns := s.hist.spawns + 1, registrations := s.hist.registrations + 1))
  {
    s' := Sleeps(s, t, left);
    s' := BuildsUp(s', t);
  }

  lemma BuildsUp(s: Sys, t: Tid) returns (s': Sys)
    requires Reachable(s) && !s.failed && s.mutex == Free && Informing(s.main) && t in s.workers
    requires s.workers[t] == Newcomer(s, Spawned)
    ensures Reachable(s')
    ensures s' == s.(workers := s.workers[t := Newcomer(s, Ready)], mutex := ByWorker(t),
                     reg := Enrolled(s.reg, s.workers[t].pool, t, IDLE_NOTE),
                     gauges := AddIdle(s.gauges, s.workers[t].pool, 1),
                     hist := s.hist.(registrations := s.hist.registrations + 1))
  {
    s' := Builds(s, t);
    s' := Registers(s', t);
  }

  /** One turn of the start loop, with its thread ready for its first check. */
  lemma StartsOne(s: Sys, t: Tid, left: nat) returns (s': Sys)
    requires Poised(s, left) && left > 0 && t !in s.workers
    ensures Poised(s', left - 1) && s'.main == s.main.(inform := TakeLock(left - 1))
    ensures s'.workers == s.workers[t := Newcomer(s, CheckForce)]
    ensures var pool := Current(s.main).pool;
            && Members(s'.reg, pool) == Members(s.reg, pool) + {t}
            && Unmarked(s'.reg, pool) == Unmarked(s.reg, pool) + {t}
            && s'.gauges == AddIdle(s.gauges, pool, 1)
    ensures s'.counters == s.counters && s'.hist.phantoms == s.hist.phantoms && s'.hist.epoch == s.hist.epoch
  {
    EnrolledMembers(s, Current(s.main).pool, t);
    s' := Constructs(s, t, left);
    s' := Joins(s', t, left);
  }

  // ----- a pool of one server list and one URI

  function Wants(n: uint32): Config {
    Config({}, map["p" := PoolData(n, "u", {})])
  }

  function Order(n: uint32): Directive {
    DirectiveFor(Wants(n), "p")
  }

  lemma Supersedes(c: Config, n: uint32)
    requires c == EMPTY_CONFIG || exists m :: c == Wants(m)
    ensures IsSupersede(c, Wants(n), [], [Order(n)])
  {
    assert Outdated(c, Wants(n)) == {};
    assert Pools([]) == {} && Pools([Order(n)]) == {"p"};
  }

  /** Between passes, with nothing in the way. */
  ghost predicate Calm(s: Sys, c: Config) {
    && Reachable(s) && !s.failed && s.mutex == Free && !s.force
    && s.main == MainThread(AtTop, c, c, [], [], ReadCount)
  }

  /** A pass begins and finds the pool to be of some size. */
  lemma Counts(s: Sys, c: Config, n: uint32) returns (s': Sys)
    requires Calm(s, c) && (c == EMPTY_CONFIG || exists m :: c == Wants(m))
    ensures Reachable(s') && PoolCount(s.reg, "p") == Size(s, "p")
    ensures s' == s.(reg := Touch(s.reg, "p"), hist := s'.hist, main := s'.main)
    ensures s'.hist.phantoms == s.hist.phantoms
    ensures var size := Size(s, "p");
            s'.main == if size == n then MainThread(Passing, c, Wants(n), [], [], ReadCount)
                       else MainThread(Passing, c, Wants(n), [], [Order(n)],
                                       if size > n then Stopping(size - n) else TakeLock(n - size))
  {
    ReachableInv(s);
    CountExact(s, "p");
    Supersedes(c, n);
    s' := Take(s, BeginPass(Wants(n), [], [Order(n)]));
    s' := Take(s', Go);
  }

  /** The pass is done with the pool. */
  lemma Ends(s: Sys, c: Config, n: uint32) returns (s': Sys)
    requires Reachable(s) && !s.failed && s.mutex == Free && !s.force
    requires s.main == MainThread(Passing, c, Wants(n), [], [], ReadCount)
    ensures Calm(s', Wants(n)) && s' == s.(main := s'.main)
  {
    s' := Take(s, EndPass);
  }

  lemma StartLoopEnds(s: Sys, c: Config, n: uint32) returns (s': Sys)
    requires Poised(s, 0) && s.main == MainThread(Passing, c, Wants(n), [], [Order(n)], TakeLock(0))
    ensures Calm(s', Wants(n)) && s' == s.(main := s'.main)
  {
    s' := Take(s, Go);
    s' := Ends(s', c, n);
  }

  /** A thread at its first check. */
  ghost predicate Idler(w: Worker) {
    w.pool == "p" && w.pc == CheckForce && w.client == GrabJob && w.active == [] && w.ran == [] && w.scripts == []
  }

  /** The first pass finds nobody and prepares to start `n` threads. */
  lemma Opens(n: uint32) returns (s: Sys)
    requires n > 0
    ensures Poised(s, n) && s.main == MainThread(Passing, EMPTY_CONFIG, Wants(n), [], [Order(n)], TakeLock(n))
    ensures s.reg == RegistryState(map[], map["p" := {}]) && s.workers == map[]
    ensures s.gauges == ZERO_GAUGES && s.counters == ZERO_COUNTERS && s.hist.phantoms == []
  {
    s := Start();
    s := Counts(s, EMPTY_CONFIG, n);
  }

  lemma FirstOfTwo() returns (s: Sys)
    ensures Poised(s, 1) && s.main == MainThread(Passing, EMPTY_CONFIG, Wants(2), [], [Order(2)], TakeLock(1))
    ensures s.workers.Keys == {1} && Idler(s.workers[1])
    ensures Unmarked(s.reg, "p") == Members(s.reg, "p") == {1}
  {
    s := Opens(2);
    s := StartsOne(s, 1, 2);
  }

  /** Two threads, both registered and unmarked, and both wanted. */
  lemma TwoWorkers() returns (s: Sys)
    ensures Calm(s, Wants(2)) && s.workers.Keys == {1, 2} && Idler(s.workers[1]) && Idler(s.workers[2])
    ensures Unmarked(s.reg, "p") == Members(s.reg, "p") == {1, 2}
  {
    s := FirstOfTwo();
    s := StartsOne(s, 2, 1);
    s := StartLoopEnds(s, EMPTY_CONFIG, 2);
  }

  /** One thread, and nothing else. */
  lemma OneWorker() returns (s: Sys)
    ensures Calm(s, Wants(1)) && s.workers.Keys == {1} && Idler(s.workers[1])
    ensures Unmarked(s.reg, "p") == Members(s.reg, "p") == {1}
    ensures s.gauges == AddIdle(ZERO_GAUGES, "p", 1) && s.counters == ZERO_COUNTERS && s.hist.phantoms == []
  {
    s := Opens(1);
    s := StartsOne(s, 1, 1);
    s := StartLoopEnds(s, EMPTY_CONFIG, 1);
  }

  // ----- stopped too many

  /** Main marks thread `t` of the pool and ends its pass. */
  lemma Stops(s: Sys, c: Config, t: Tid) returns (s': Sys)
    requires Reachable(s) && !s.failed && s.mutex == Free && !s.force
    requires s.main == MainThread(Passing, c, Wants(1), [], [Order(1)], Stopping(1)) && t in Unmarked(s.reg, "p")
    ensures Calm(s', Wants(1)) && s'.workers == s.workers
    ensures Members(s'.reg, "p") == Members(s.reg, "p") && Unmarked(s'.reg, "p") == Unmarked(s.reg, "p") - {t}
  {
    ReachableInv(s);
    SubsetCardinality({t}, Unmarked(s.reg, "p"));
    StopSucceeds(s, {t});
    AgreeTouch(s.reg, "p");
    AgreeMark(Touch(s.reg, "p"), {t});
    s' := Take(s, SendStop({t}));
    s' := Ends(s', c, 1);
  }

  /**
   Two workers, then one wanted: the first pass marks one, and as long as it has not left, the
   next pass over the same configuration counts it as surplus and marks the other.
   */
  lemma DrainingCostsTheOther() returns (s: Sys)
    ensures Calm(s, Wants(1)) && Members(s.reg, "p") == {1, 2} && Unmarked(s.reg, "p") == {}
  {
    s := TwoWorkers();
    s := Counts(s, Wants(2), 1);
    s := Stops(s, Wants(2), 1);
    s := Counts(s, Wants(1), 1);
    s := Stops(s, Wants(1), 2);
  }

  /** A thread at its first check passes both and calls the library. */
  lemma CallsWork(s: Sys, t: Tid) returns (s': Sys)
    requires Reachable(s) && !s.failed && !s.force && t in s.workers && Idler(s.workers[t]) && !Marked(s, t)
    ensures Reachable(s')
    ensures s' == s.(workers := s.workers[t := s.workers[t].(pc := InWork, scripts := [[]])])
  {
    s' := WorkerTakes(s, t, Proceed);
    s' := WorkerTakes(s', t, Proceed);
    s' := WorkerTakes(s', t, Proceed);
    assert s'.workers[t].scripts == [[]];
  }

  /** A thread's connection fails and it unregisters. */
  lemma DropsOut(s: Sys, t: Tid) returns (s': Sys)
    requires Reachable(s) && !s.failed && !s.force && t in s.workers && Idler(s.workers[t]) && !Marked(s, t)
    requires t in s.reg.threads
    ensures Reachable(s') && !s'.failed && !s'.force && s'.mutex == s.mutex && s'.main == s.main
    ensures s'.reg == RegistryState(s.reg.threads - {t}, s.reg.store["p" := Members(s.reg, "p") - {t}])
  {
    s' := CallsWork(s, t);
    s' := WorkerTakes(s', t, WorkReturns(NotConnected));
    s' := WorkerTakes(s', t, Proceed);
  }

  /**
   Two workers, none of them draining, then one wanted: main counts two, one of them drops out,
   and main marks the one that is left.
   */
  lemma LeavingCostsTheOther() returns (counted: Sys, s: Sys)
    ensures Reachable(counted) && counted.main.inform == Stopping(1)
    ensures Unmarked(counted.reg, "p") == Members(counted.reg, "p") == {1, 2}
    ensures Calm(s, Wants(1)) && Members(s.reg, "p") == {2} && Unmarked(s.reg, "p") == {}
  {
    s := TwoWorkers();
    counted := Counts(s, Wants(2), 1);
    s := DropsOut(counted, 1);
    assert Unmarked(s.reg, "p") == Members(s.reg, "p") == {2};
    s := Stops(s, Wants(2), 2);
  }

  // ----- restarted and left dry

  function MovesTo(uri: string): Config {
    Config({}, map["p" := PoolData(1, uri, {})])
  }

  lemma MoveSupersedes(uri: string)
    requires uri != "u"
    ensures IsSupersede(Wants(1), MovesTo(uri), [ClearDirective(Wants(1), "p")], [DirectiveFor(MovesTo(uri), "p")])
  {
    var clear, order := ClearDirective(Wants(1), "p"), DirectiveFor(MovesTo(uri), "p");
    assert Outdated(Wants(1), MovesTo(uri)) == {"p"};
    assert Pools([clear]) == {"p"} && Pools([order]) == {"p"};
  }

  /** The pass over the pool's new URI begins by counting what there is to clear. */
  lemma CountsToClear(s: Sys, uri: string) returns (s': Sys)
    requires Calm(s, Wants(1)) && Size(s, "p") == 1 && uri != "u"
    ensures Reachable(s') && s' == s.(reg := Touch(s.reg, "p"), hist := s'.hist, main := s'.main)
    ensures s'.main == MainThread(Passing, Wants(1), MovesTo(uri), [ClearDirective(Wants(1), "p")],
                                  [DirectiveFor(MovesTo(uri), "p")], Stopping(1))
  {
    ReachableInv(s);
    CountExact(s, "p");
    MoveSupersedes(uri);
    s' := Take(s, BeginPass(MovesTo(uri), [ClearDirective(Wants(1), "p")], [DirectiveFor(MovesTo(uri), "p")]));
    s' := Take(s', Go);
  }

  /** The clear marks the only thread. */
  lemma Clears(s: Sys, uri: string) returns (s': Sys)
    requires Reachable(s) && !s.failed && Unmarked(s.reg, "p") == Members(s.reg, "p") == {1}
    requires s.main == MainThread(Passing, Wants(1), MovesTo(uri), [ClearDirective(Wants(1), "p")],
                                  [DirectiveFor(MovesTo(uri), "p")], Stopping(1))
    ensures Reachable(s') && s' == s.(reg := s'.reg, main := s'.main)
    ensures s'.main == MainThread(Passing, Wants(1), MovesTo(uri), [], [DirectiveFor(MovesTo(uri), "p")], ReadCount)
    ensures Members(s'.reg, "p") == {1} && Unmarked(s'.reg, "p") == {}
  {
    ReachableInv(s);
    StopSucceeds(s, {1});
    AgreeTouch(s.reg, "p");
    AgreeMark(Touch(s.reg, "p"), {1});
    s' := Take(s, SendStop({1}));
  }

  /** The announcement counts that thread and finds nothing missing. */
  lemma FindsEnough(s: Sys, uri: string) returns (s': Sys)
    requires Reachable(s) && !s.failed && s.mutex == Free && !s.force && Size(s, "p") == 1
    requires s.main == MainThread(Passing, Wants(1), MovesTo(uri), [], [DirectiveFor(MovesTo(uri), "p")], ReadCount)
    ensures Calm(s', MovesTo(uri)) && s'.workers == s.workers && s'.reg == Touch(s.reg, "p")
  {
    ReachableInv(s);
    CountExact(s, "p");
    s' := Take(s, Go);
    s' := Take(s', EndPass);
  }

  /**
   One worker, then the pool's URI changes and nothing else: the pass marks the worker and starts
   none in its place, with one wanted.
   */
  lemma RestartLeavesNobody(uri: string) returns (s: Sys)
    requires uri != "u"
    ensures Calm(s, MovesTo(uri)) && s.workers.Keys == {1}
    ensures Members(s.reg, "p") == {1} && Unmarked(s.reg, "p") == {}
  {
    s := OneWorker();
    s := CountsToClear(s, uri);
    s := Clears(s, uri);
    s := FindsEnough(s, uri);
  }

  // ----- a gauge that shows nobody

  /** A thread at its first check gets handed a job. */
  lemma GetsJob(s: Sys, t: Tid, fn: string) returns (s': Sys)
    requires Reachable(s) && !s.failed && !s.force && t in s.workers && Idler(s.workers[t]) && !Marked(s, t)
    requires s.gauges == AddIdle(ZERO_GAUGES, "p", 1)
    ensures Reachable(s') && !s'.failed && s'.workers.Keys == s.workers.Keys && s'.hist.phantoms == s.hist.phantoms
    ensures var w := s'.workers[t]; w.pool == "p" && w.pc == JobIdled(fn) && w.active == []
    ensures s'.gauges == AddIdle(AddWorking(s.gauges, "p", fn, 1), "p", -1) && s'.counters == s.counters
  {
    s' := CallsWork(s, t);
    s' := WorkerTakes(s', t, StartJob(fn, ""));
    s' := WorkerTakes(s', t, Proceed);
    s' := WorkerTakes(s', t, Proceed);
  }

  /** It does the job, with whatever outcome. */
  lemma DoesJob(s: Sys, t: Tid, x: Exchange) returns (s': Sys)
    requires Reachable(s) && !s.failed && t in s.workers
    requires s.workers[t].pool == "p" && s.workers[t].pc.JobIdled? && s.workers[t].active == []
    ensures Reachable(s') && !s'.failed && s'.workers.Keys == s.workers.Keys && s'.hist.phantoms == s.hist.phantoms
    ensures var w := s'.workers[t];
            && w.pool == "p" && w.active == [s.workers[t].pc.fn]
            && w.pc == if Answers(x) then InWork else JobFailing(s.workers[t].pc.fn)
    ensures s'.gauges == s.gauges
    ensures s'.counters == NextCounters(s.counters, s.workers[t].(pc := InJob(s.workers[t].pc.fn)), JobEnds(x))
  {
    s' := WorkerTakes(s, t, Proceed);
    s' := WorkerTakes(s', t, JobEnds(x));
  }

  /** The library then reports a lost connection. */
  lemma LosesConnection(s: Sys, t: Tid) returns (s': Sys)
    requires Reachable(s) && !s.failed && t in s.workers
    requires s.workers[t].pool == "p" && (s.workers[t].pc.InWork? || s.workers[t].pc.JobFailing?)
    ensures Reachable(s') && !s'.failed && s'.workers.Keys == s.workers.Keys && s'.hist.phantoms == s.hist.phantoms
    ensures var w := s'.workers[t]; w.pool == "p" && w.pc == Exiting && w.active == s.workers[t].active
    ensures s'.gauges == s.gauges
  {
    s' := s;
    if s'.workers[t].pc.JobFailing? {
      s' := WorkerTakes(s', t, Proceed);
    }
    s' := WorkerTakes(s', t, WorkReturns(NotConnected));
  }

  /** It unregisters and begins to report the job complete, where it should report itself gone. */
  lemma Unregisters(s: Sys, t: Tid, fn: string) returns (s': Sys)
    requires Reachable(s) && !s.failed && t in s.workers
    requires s.workers[t].pool == "p" && s.workers[t].pc == Exiting && s.workers[t].active == [fn]
    ensures Reachable(s') && !s'.failed && s'.workers.Keys == s.workers.Keys && s'.hist.phantoms == s.hist.phantoms
    ensures s'.workers[t] == s.workers[t].(pc := LeaveActive)
    ensures s'.gauges == AddWorking(s.gauges, "p", fn, -1)
  {
    s' := WorkerTakes(s, t, Proceed);
    s' := WorkerTakes(s', t, Proceed);
  }

  lemma Departs(s: Sys, t: Tid) returns (s': Sys)
    requires Reachable(s) && !s.failed && t in s.workers
    requires s.workers[t].pool == "p" && s.workers[t].pc == LeaveActive
    ensures Reachable(s') && !s'.failed && s'.workers.Keys == s.workers.Keys && s'.hist.phantoms == s.hist.phantoms
    ensures s'.workers[t].pc == Ended(false)
    ensures s'.gauges == AddIdle(s.gauges, "p", 1)
  {
    s' := WorkerTakes(s, t, Proceed);
    s' := WorkerTakes(s', t, Proceed);
  }

  lemma LastOneGone(s: Sys, t: Tid) returns (s': Sys)
    requires Reachable(s) && !s.failed && s.workers.Keys == {t} && s.workers[t].pc == Ended(false)
    ensures Reachable(s') && s'.workers == map[] && s'.reg.threads == map[]
    ensures s'.gauges == s.gauges && s'.hist.phantoms == s.hist.phantoms + [s.workers[t]]
  {
    ReachableInv(s);
    LastLeaves(s, t);
    s' := Take(s, Act(t, Proceed));
  }

  /** The only thread of the program is about to end with a job on its stack. */
  lemma AbandonsJob(fn: string, x: Exchange) returns (s: Sys)
    ensures Reachable(s) && !s.failed && s.workers.Keys == {1} && s.hist.phantoms == []
    ensures s.workers[1].pool == "p" && s.workers[1].pc == Exiting && s.workers[1].active == [fn]
    ensures Idle(s.gauges, "p") == 0
  {
    s := OneWorker();
    s := GetsJob(s, 1, fn);
    s := DoesJob(s, 1, x);
    s := LosesConnection(s, 1);
  }

  /** All threads have ended, yet one still counts as idle, and always will. */
  lemma GaugeOutlivesThread(fn: string, x: Exchange) returns (s: Sys)
    ensures Reachable(s) && s.workers == map[] && s.reg.threads == map[]
    ensures Idle(s.gauges, "p") == 1 && |s.hist.phantoms| == 1
  {
    s := AbandonsJob(fn, x);
    s := Unregisters(s, 1, fn);
    s := Departs(s, 1);
    s := LastOneGone(s, 1);
  }

  // ----- a failure without an error

  /**
   A job times out or meets an HTTP error: until its thread makes its second report, the counters
   show a failure of that kind and no error.
   */
  lemma FailureBeforeError(fn: string, x: Exchange) returns (s: Sys)
    requires Expires(x) || Refused(x)
    ensures Reachable(s)
    ensures var t := Read(s.counters, "p", fn);
            && t.errors == 0 && t.timeouts == (if Expires(x) then 1 else 0)
            && t.http == if Refused(x) then 1 else 0
  {
    s := OneWorker();
    s := GetsJob(s, 1, fn);
    CountersEnd(s.counters, s.workers[1].(pc := InJob(fn)), x, "p", fn);
    NoHttpErrors("p", fn, UINT16_MODULUS);
    s := DoesJob(s, 1, x);
  }
}
