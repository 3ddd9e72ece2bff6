/**
 The start handshake, over every run: main never goes on before its thread is registered, no
 wakeup is lost, and the two of them are done after a bounded number of steps whatever the other
 threads do meanwhile.
 */
module Progress {
  import opened Common
  import opened Registry
  import opened Configs
  import opened Client
  import opened Protocol
  import opened Handshake
  import opened Reconcile

  /** At most one thread is under construction, and it is the one that main waits for. */
  lemma OneAtATime(states: seq<Sys>, actions: seq<Action>, i: nat, t: Tid, u: Tid)
    requires Behaviour(states, actions) && i < |states|
    requires t in states[i].workers && Unsignalled(states[i].workers[t].pc)
    requires u in states[i].workers && Unsignalled(states[i].workers[u].pc)
    ensures t == u && Waiting(states[i].main.inform) && states[i].main.inform.tid == t
  {
    InvRun(states, actions, i);
  }

  /** Main gets past its wait only when every thread spawned so far has registered. */
  lemma WaitsForRegistration(states: seq<Sys>, actions: seq<Action>, i: nat)
    requires Behaviour(states, actions) && i < |actions|
    requires states[i].main.inform.CheckWakeup? && states[i + 1].main.inform.Detach?
    ensures states[i].hist.registrations == states[i].hist.spawns
    ensures states[i].main.inform.tid in states[i].workers ==>
              !Unsignalled(states[i].workers[states[i].main.inform.tid].pc)
  {
    InvRun(states, actions, i);
    assert StepAt(states, actions, i);
    InvRun(states, actions, i + 1);
    if actions[i].Act? {
      WorkerEffect(states[i], actions[i].actor, actions[i].move);
    }
  }

  /** If main sleeps although its thread has signalled, the notification is still to come. */
  lemma NoLostWakeup(states: seq<Sys>, actions: seq<Action>, i: nat)
    requires Behaviour(states, actions) && i < |states|
    requires states[i].main.inform.Asleep? && states[i].wakeup != WakeInit
    ensures var t := states[i].main.inform.tid;
            t in states[i].workers && (states[i].workers[t].pc.Signalled? || states[i].workers[t].pc.Unlocked?)
  {
    InvRun(states, actions, i);
  }

  function ConstructionLeft(pc: Pc): nat {
    match pc
    case Spawned => 7
    case Building => 6
    case Built => 5
    case Registered => 4
    case Ready => 3
    case Signalled => 2
    case Unlocked => 1
    case _ => 0
  }

  /** What is left of the handshake: the thread's construction first, then main's wait. */
  ghost function HandshakeLeft(s: Sys): nat
    requires Waiting(s.main.inform)
  {
    3 * (if s.main.inform.tid in s.workers then ConstructionLeft(s.workers[s.main.inform.tid].pc) else 0)
    + (if s.main.inform.Woken? then 2 else if s.main.inform.CheckWakeup? then 1 else 0)
  }

  /** The steps of main and of the thread it waits for, without spurious wakeups. */
  ghost predicate Handshaking(s: Sys, a: Action)
    requires Waiting(s.main.inform)
  {
    a == Go || a == Act(s.main.inform.tid, Proceed)
  }

  lemma HandshakeGoes(s: Sys)
    requires Waiting(s.main.inform) && InformEnabled(s)
    ensures InformStep(s).main.inform.Detach? ||
            (Waiting(InformStep(s).main.inform) && HandshakeLeft(InformStep(s)) < HandshakeLeft(s))
  {
  }

  lemma ConstructionMoves(w: Worker, move: Move, force: bool, marked: bool)
    requires MoveEnabled(w, move) && ConstructionLeft(w.pc) > 0
    ensures ConstructionLeft(NextWorker(w, move, force, marked).pc) == ConstructionLeft(w.pc) - 1
  {
  }

  lemma HandshakeMoves(s: Sys, s': Sys)
    requires Waiting(s.main.inform) && Moves(s, s.main.inform.tid, s')
    requires ConstructionLeft(s'.workers[s.main.inform.tid].pc) < ConstructionLeft(s.workers[s.main.inform.tid].pc)
    ensures Waiting(s'.main.inform) && HandshakeLeft(s') < HandshakeLeft(s)
  {
  }

  lemma HandshakeActs(s: Sys, move: Move)
    requires Owned(s) && Waiting(s.main.inform) && WorkerEnabled(s, s.main.inform.tid, move)
    requires ConstructionLeft(s.workers[s.main.inform.tid].pc) > 0
    ensures var s' := WorkerStep(s, s.main.inform.tid, move);
            Waiting(s'.main.inform) && HandshakeLeft(s') < HandshakeLeft(s)
  {
    var t := s.main.inform.tid;
    WorkerEffect(s, t, move);
    ConstructionMoves(s.workers[t], move, s.force, Marked(s, t));
    HandshakeMoves(s, WorkerStep(s, t, move));
  }

  /** Each step of the handshake gets main past its wait or leaves less to do. */
  lemma HandshakeAdvances(s: Sys, a: Action)
    requires Inv(s) && Waiting(s.main.inform) && Enabled(s, a) && Handshaking(s, a)
    requires a.Act? ==> ConstructionLeft(s.workers[s.main.inform.tid].pc) > 0
    ensures Apply(s, a).main.inform.Detach? ||
            (Waiting(Apply(s, a).main.inform) && HandshakeLeft(Apply(s, a)) < HandshakeLeft(s))
  {
    if a.Go? {
      HandshakeGoes(s);
    } else {
      HandshakeActs(s, Proceed);
    }
  }

  /** And main is never stuck: one of the two can always take such a step. */
  lemma HandshakeNeverStuck(s: Sys)
    requires Inv(s) && Waiting(s.main.inform)
    ensures || Enabled(s, Go)
            || (&& Enabled(s, Act(s.main.inform.tid, Proceed))
                && ConstructionLeft(s.workers[s.main.inform.tid].pc) > 0)
  {
    WaitingGoesOn(s);
  }

  /** Main can take the mutex or its holder, the thread under construction, can go on. */
  lemma WaitingGoesOn(s: Sys)
    requires Locking(s) && Shaking(s) && Structured(s) && Waiting(s.main.inform)
    ensures || InformEnabled(s)
            || (&& WorkerEnabled(s, s.main.inform.tid, Proceed)
                && ConstructionLeft(s.workers[s.main.inform.tid].pc) > 0)
  {
    if s.main.inform.Woken? && s.mutex != Free {
      assert s.mutex.ByWorker? && HoldsLock(s.workers[s.mutex.tid].pc);
    }
  }

  /** So from every waiting state the two of them alone can bring main past its wait. */
  lemma {:induction false} HandshakeCompletes(s: Sys) returns (states: seq<Sys>, actions: seq<Action>)
    requires Inv(s) && Waiting(s.main.inform)
    ensures IsRun(states, actions) && states[0] == s && states[|actions|].main.inform.Detach?
    ensures |actions| <= HandshakeLeft(s) + 1
    decreases HandshakeLeft(s)
  {
    var a, s' := NextInHandshake(s);
    if s'.main.inform.Detach? {
      states, actions := [s, s'], [a];
    } else {
      var later, rest := HandshakeCompletes(s');
      states, actions := [s] + later, [a] + rest;
      RunFromStep(s, a, later, rest);
    }
  }

  lemma RunFromStep(s: Sys, a: Action, later: seq<Sys>, rest: seq<Action>)
    requires Enabled(s, a) && IsRun(later, rest) && later[0] == Apply(s, a)
    ensures IsRun([s] + later, [a] + rest)
  {
    var states, actions := [s] + later, [a] + rest;
    forall i: nat | i < |actions|
      ensures StepAt(states, actions, i)
    {
      if i > 0 {
        assert StepAt(later, rest, i - 1);
        assert states[i] == later[i - 1] && states[i + 1] == later[i] && actions[i] == rest[i - 1];
      }
    }
  }

  lemma NextInHandshake(s: Sys) returns (a: Action, s': Sys)
    requires Inv(s) && Waiting(s.main.inform)
    ensures Enabled(s, a) && Handshaking(s, a) && s' == Apply(s, a) && Inv(s')
    ensures s'.main.inform.Detach? || (Waiting(s'.main.inform) && HandshakeLeft(s') < HandshakeLeft(s))
  {
    HandshakeNeverStuck(s);
    a := if Enabled(s, Go) then Go else Act(s.main.inform.tid, Proceed);
    HandshakeAdvances(s, a);
    InvStep(s, a);
    s' := Apply(s, a);
  }

  // ----- with everyone else at work

  /** A step of the handshake: main's, or one of the construction of the thread it waits for. */
  ghost predicate Shakes(s: Sys, a: Action, t: Tid) {
    a == Go || (a.Act? && a.actor == t && t in s.workers && ConstructionLeft(s.workers[t].pc) > 0)
  }

  /** A wakeup that is not due: a spurious one, or the notification of an earlier thread. */
  ghost predicate Disturbs(s: Sys, a: Action, t: Tid) {
    a == WakeSpuriously || (a.Act? && a.actor != t && a.actor in s.workers && s.workers[a.actor].pc.Unlocked?)
  }

  ghost predicate Awaits(s: Sys, t: Tid) {
    Waiting(s.main.inform) && s.main.inform.tid == t
  }

  lemma AwaitingMain(s: Sys, a: Action, t: Tid)
    requires Structured(s) && Awaits(s, t) && Enabled(s, a) && !a.Act? && Awaits(Apply(s, a), t)
    ensures (if Shakes(s, a, t) then 1 else 0) + HandshakeLeft(Apply(s, a))
            <= HandshakeLeft(s) + 2 * if Disturbs(s, a, t) then 1 else 0
  {
    if a.Go? {
      HandshakeGoes(s);
    }
  }

  lemma AwaitingMoves(s: Sys, u: Tid, move: Move, t: Tid)
    requires Owned(s) && Awaits(s, t) && WorkerEnabled(s, u, move)
    requires Awaits(WorkerStep(s, u, move), t)
    ensures (if Shakes(s, Act(u, move), t) then 1 else 0) + HandshakeLeft(WorkerStep(s, u, move))
            <= HandshakeLeft(s) + 2 * if Disturbs(s, Act(u, move), t) then 1 else 0
  {
    WorkerEffect(s, u, move);
    if u == t && ConstructionLeft(s.workers[t].pc) > 0 {
      HandshakeActs(s, move);
    }
  }

  lemma AwaitingStep(states: seq<Sys>, actions: seq<Action>, i: nat, t: Tid)
    requires Behaviour(states, actions) && i < |actions| && Awaits(states[i], t) && Awaits(states[i + 1], t)
    ensures (if Shakes(states[i], actions[i], t) then 1 else 0) + HandshakeLeft(states[i + 1])
            <= HandshakeLeft(states[i]) + 2 * if Disturbs(states[i], actions[i], t) then 1 else 0
  {
    InvRun(states, actions, i);
    assert StepAt(states, actions, i);
    if actions[i].Act? {
      AwaitingMoves(states[i], actions[i].actor, actions[i].move, t);
    } else {
      AwaitingMain(states[i], actions[i], t);
    }
  }

  /** How many of the steps from `i` to `j` are of the handshake, and how many disturb it. */
  ghost function ShakeCount(states: seq<Sys>, actions: seq<Action>, i: nat, j: nat, t: Tid): nat
    requires i <= j <= |actions| < |states|
  {
    if i == j then 0
    else ShakeCount(states, actions, i, j - 1, t) + if Shakes(states[j - 1], actions[j - 1], t) then 1 else 0
  }

  ghost function DisturbCount(states: seq<Sys>, actions: seq<Action>, i: nat, j: nat, t: Tid): nat
    requires i <= j <= |actions| < |states|
  {
    if i == j then 0
    else DisturbCount(states, actions, i, j - 1, t) + if Disturbs(states[j - 1], actions[j - 1], t) then 1 else 0
  }

  ghost predicate AwaitsThroughout(states: seq<Sys>, i: nat, j: nat, t: Tid)
    requires j < |states|
  {
    forall k :: i <= k <= j ==> Awaits(states[k], t)
  }

  /**
   Over any stretch of waiting for one thread, the steps of the handshake are no more than what
   was left of it at the start, and two for each wakeup that was not due.
   */
  lemma {:induction false} HandshakeBounded(states: seq<Sys>, actions: seq<Action>, i: nat, j: nat, t: Tid)
    requires Behaviour(states, actions) && i <= j < |states| && AwaitsThroughout(states, i, j, t)
    ensures ShakeCount(states, actions, i, j, t) + HandshakeLeft(states[j])
            <= HandshakeLeft(states[i]) + 2 * DisturbCount(states, actions, i, j, t)
  {
    if i < j {
      HandshakeBounded(states, actions, i, j - 1, t);
      AwaitingStep(states, actions, j - 1, t);
    }
  }

  // ----- what one start does

  /**
   A registry against the one in which the thread `t` was spawned: whoever is in it was there,
   with the same mark, or is the new thread, unmarked and started with the directive's data.
   */
  ghost predicate Grown(s: Sys, s': Sys, t: Tid, d: Directive) {
    forall u :: u in s'.reg.threads ==>
      || (&& u in s.reg.threads && s'.reg.threads[u].pool == s.reg.threads[u].pool
          && s'.reg.threads[u].shouldShutdown == s.reg.threads[u].shouldShutdown)
      || (&& u == t && s'.reg.threads[u].pool == d.pool && !s'.reg.threads[u].shouldShutdown
          && u in s'.workers && s'.workers[u].data == d.data)
  }

  ghost predicate Starting(s: Sys, s': Sys, t: Tid, d: Directive) {
    && s'.hist.spawns == s.hist.spawns + 1 && Grown(s, s', t, d)
    && Informing(s'.main) && Current(s'.main) == d
  }

  lemma StartingMoves(s: Sys, s': Sys, u: Tid, s'': Sys, t: Tid, d: Directive)
    requires Base(s') && Awaits(s', t) && Starting(s, s', t, d) && (Moves(s', u, s'') || Leaves(s', u, s''))
    ensures Starting(s, s'', t, d)
  {
    if Moves(s', u, s'') {
      GrownMoves(s, s', u, s'', t, d);
    } else {
      GrownLeaves(s, s', u, s'', t, d);
    }
  }

  lemma GrownMoves(s: Sys, s': Sys, u: Tid, s'': Sys, t: Tid, d: Directive)
    requires Grown(s, s', t, d) && Moves(s', u, s'')
    requires s'.workers[u].pc.Built? ==> u == t && s'.workers[u].pool == d.pool && s'.workers[u].data == d.data
    ensures Grown(s, s'', t, d)
  {
  }

  lemma GrownLeaves(s: Sys, s': Sys, u: Tid, s'': Sys, t: Tid, d: Directive)
    requires Owned(s') && Grown(s, s', t, d) && Leaves(s', u, s'')
    ensures Grown(s, s'', t, d)
  {
  }

  lemma StartingMain(s: Sys, s': Sys, a: Action, t: Tid, d: Directive)
    requires Structured(s') && Awaits(s', t) && Starting(s, s', t, d) && Enabled(s', a) && !a.Act?
    ensures Starting(s, Apply(s', a), t, d)
  {
  }

  lemma StartingStep(states: seq<Sys>, actions: seq<Action>, i: nat, k: nat, t: Tid, d: Directive)
    requires Behaviour(states, actions) && i <= k < |actions|
    requires Awaits(states[k], t) && Starting(states[i], states[k], t, d)
    ensures Starting(states[i], states[k + 1], t, d)
  {
    InvRun(states, actions, k);
    assert StepAt(states, actions, k);
    if actions[k].Act? {
      WorkerEffect(states[k], actions[k].actor, actions[k].move);
      StartingMoves(states[i], states[k], actions[k].actor, states[k + 1], t, d);
    } else {
      StartingMain(states[i], states[k], actions[k], t, d);
    }
  }

  lemma StartBegins(states: seq<Sys>, actions: seq<Action>, i: nat)
    requires Behaviour(states, actions) && i < |actions| && actions[i].Spawn?
    ensures Informing(states[i].main) && Awaits(states[i + 1], actions[i].newcomer)
    ensures Starting(states[i], states[i + 1], actions[i].newcomer, Current(states[i].main))
    ensures states[i].hist.registrations == states[i].hist.spawns
  {
    InvRun(states, actions, i);
    assert StepAt(states, actions, i);
  }

  lemma {:induction false} StartGoesOn(states: seq<Sys>, actions: seq<Action>, i: nat, j: nat)
    requires Behaviour(states, actions) && i < j < |states| && actions[i].Spawn? && Informing(states[i].main)
    requires forall k :: i < k < j ==> Awaits(states[k], actions[i].newcomer)
    ensures Starting(states[i], states[j], actions[i].newcomer, Current(states[i].main))
    decreases j
  {
    if j == i + 1 {
      StartBegins(states, actions, i);
    } else {
      StartGoesOn(states, actions, i, j - 1);
      StartingStep(states, actions, i, j - 1, actions[i].newcomer, Current(states[i].main));
    }
  }

  /**
   From the spawn of a thread to the end of main's wait for it, whatever the others do: exactly
   one thread has registered, the registry holds nobody that it did not hold before except that
   thread, unmarked and started for the directive, and nobody has been marked.
   */
  lemma HandshakeStartsOne(states: seq<Sys>, actions: seq<Action>, i: nat, j: nat)
    requires Behaviour(states, actions) && i < j < |states| && actions[i].Spawn?
    requires forall k :: i < k < j ==> Awaits(states[k], actions[i].newcomer)
    requires states[j].main.inform.Detach?
    ensures Informing(states[i].main)
    ensures states[j].hist.registrations == states[i].hist.registrations + 1
    ensures Grown(states[i], states[j], actions[i].newcomer, Current(states[i].main))
  {
    StartBegins(states, actions, i);
    StartGoesOn(states, actions, i, j);
    InvRun(states, actions, j);
  }

  // ----- nobody is ever stuck

  /** Main has something to inform about and can go on with it, or waits for a thread that can. */
  ghost predicate InformGoesOn(s: Sys) {
    || Enabled(s, Go)
    || (exists marks :: Enabled(s, SendStop(marks)))
    || (exists t :: Enabled(s, Spawn(t)))
    || (Waiting(s.main.inform) && WorkerEnabled(s, s.main.inform.tid, Proceed))
  }

  lemma StopExists(s: Sys)
    requires !s.failed && Informing(s.main) && s.main.inform.Stopping?
    ensures exists marks :: Enabled(s, SendStop(marks))
  {
    var u := Unmarked(s.reg, Current(s.main).pool);
    var marks := SubsetOfSize(u, Min(Quota(s.main.inform.count), |u|));
    assert Enabled(s, SendStop(marks));
  }

  lemma SpawnExists(s: Sys)
    requires !s.failed && Informing(s.main) && s.main.inform.Spawning?
    ensures exists t :: Enabled(s, Spawn(t))
  {
    var n := Bound(s.workers.Keys);
    assert n !in s.workers;
    assert Enabled(s, Spawn(n));
  }

  lemma InformNeverStuck(s: Sys)
    requires Inv(s) && Informing(s.main)
    ensures InformGoesOn(s)
  {
    match s.main.inform
    case Stopping(_) => StopExists(s);
    case Spawning(_) => SpawnExists(s);
    case CheckWakeup(_, _) => HandshakeNeverStuck(s);
    case Asleep(_, _) => HandshakeNeverStuck(s);
    case Woken(_, _) => HandshakeNeverStuck(s);
    case TakeLock(_) => LockIsFree(s);
    case _ => assert Enabled(s, Go);
  }

  /** Nobody holds the start mutex when main comes to take it. */
  lemma LockIsFree(s: Sys)
    requires Locking(s) && Shaking(s) && s.main.inform.TakeLock?
    ensures s.mutex == Free
  {
    assert s.mutex.ByWorker? ==> HoldsLock(s.workers[s.mutex.tid].pc);
  }

  /**
   In every state of every run main can go on, or the thread that it waits for can. Between
   passes it can begin a pass over any configuration that it may load, or the shutdown.
   */
  lemma MainNeverStuck(states: seq<Sys>, actions: seq<Action>, i: nat, next: Config)
    requires Behaviour(states, actions) && i < |states|
    ensures states[i].main.phase == AtTop ==>
              && Enabled(states[i], LoadFails)
              && (exists clears, news :: Enabled(states[i], BeginPass(next, clears, news)))
              && (exists stops :: Enabled(states[i], BeginShutdown(stops)))
    ensures Informing(states[i].main) ==> InformGoesOn(states[i])
    ensures states[i].main.phase == Passing && !Informing(states[i].main) ==> Enabled(states[i], EndPass)
    ensures states[i].main.phase == Clearing && !Informing(states[i].main) ==> Enabled(states[i], EndShutdown)
    ensures states[i].main.phase in {Finished, Aborted} ==> Enabled(states[i], ReleaseRegistry)
    ensures states[i].main.inform.Asleep? ==> Enabled(states[i], WakeSpuriously)
    ensures Informing(states[i].main) && states[i].main.inform.Spawning? ==> Enabled(states[i], SpawnFails)
  {
    InvRun(states, actions, i);
    var s := states[i];
    if s.main.phase == AtTop {
      var clears, news := SupersedeExists(s.main.config, next);
      assert Enabled(s, BeginPass(next, clears, news));
      var stops := ClearingExists(s.main.config, s.main.config.pools.Keys);
      assert Enabled(s, BeginShutdown(stops));
    }
    if Informing(s.main) {
      InformNeverStuck(s);
    }
  }

  /** And every thread takes whatever the library does next: any job, any outcome, any code. */
  lemma WorkersNeverStuck(states: seq<Sys>, actions: seq<Action>, i: nat, t: Tid, job: JobRun, code: Code)
    requires Behaviour(states, actions) && i < |states| && t in states[i].workers
    ensures var s, pc := states[i], states[i].workers[t].pc;
            if pc.InWork? then
              Enabled(s, Act(t, StartJob(job.fn, job.note))) && Enabled(s, Act(t, WorkReturns(code)))
            else if pc.InJob? then Enabled(s, Act(t, JobEnds(job.exchange)))
            else if pc.Running? && s.workers[t].client == Poll then Enabled(s, Act(t, WaitReturns(code)))
            else if pc.Spawned? && s.mutex != Free then s.mutex == ByMain
            else Enabled(s, Act(t, Proceed))
  {
    InvRun(states, actions, i);
    if states[i].workers[t].pc.Spawned? && states[i].mutex != Free {
      SpawnedWaits(states[i], t);
    }
  }

  /** A thread that has not begun waits at most for main to release the mutex. */
  lemma SpawnedWaits(s: Sys, t: Tid)
    requires Locking(s) && Shaking(s) && t in s.workers && s.workers[t].pc.Spawned? && s.mutex != Free
    ensures s.mutex == ByMain
  {
    assert s.mutex.ByWorker? ==> HoldsLock(s.workers[s.mutex.tid].pc);
  }
}
