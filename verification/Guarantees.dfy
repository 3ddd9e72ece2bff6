/**
 What the program promises, over every run: any interleaving of the main thread with its workers,
 any sequence of configurations, any replies of the libraries, any exits.
 */
module Guarantees {
  import opened Registry
  import opened Configs
  import opened Protocol
  import opened Handshake
  import opened Reconcile
  import opened Sums

  // ----- the registry

  /**
   No assertion of the registry fails, its destructor's included; the two indexes agree; and the
   registered threads are live threads, each filed under the pool it was started for.
   */
  lemma RegistrySound(states: seq<Sys>, actions: seq<Action>, i: nat)
    requires Behaviour(states, actions) && i < |states|
    ensures !states[i].failed
    ensures Disjoint(states[i].reg.store) && StoreSize(states[i].reg.store) == |states[i].reg.threads|
    ensures forall t :: t in states[i].reg.threads <==> t in states[i].workers && InRegistry(states[i].workers[t].pc)
    ensures forall t :: t in states[i].reg.threads ==>
              && states[i].reg.threads[t].pool == states[i].workers[t].pool
              && t in Members(states[i].reg, states[i].workers[t].pool)
  {
    InvRun(states, actions, i);
    IndexesPartition(states[i].reg);
  }

  /** Whoever is registered still holds a reference: the registry cannot be destroyed first. */
  lemma ReleasedWhenEmpty(states: seq<Sys>, actions: seq<Action>, i: nat)
    requires Behaviour(states, actions) && i < |states|
    requires states[i].main.phase == Released && states[i].workers == map[]
    ensures states[i].reg.threads == map[]
  {
    InvRun(states, actions, i);
  }

  /** The identifier of a thread about to be spawned, recycled or not, is not registered. */
  lemma FreshIdentifiers(states: seq<Sys>, actions: seq<Action>, i: nat)
    requires Behaviour(states, actions) && i < |actions| && actions[i].Spawn?
    ensures actions[i].newcomer !in states[i].reg.threads
    ensures forall p :: actions[i].newcomer !in Members(states[i].reg, p)
  {
    InvRun(states, actions, i);
    assert StepAt(states, actions, i);
    forall p
      ensures actions[i].newcomer !in Members(states[i].reg, p)
    {
      MembersAgree(states[i].reg, p, actions[i].newcomer);
    }
  }

  /** A mark stays for as long as the thread stays registered. */
  lemma MarksStay(states: seq<Sys>, actions: seq<Action>, i: nat, t: Tid)
    requires Behaviour(states, actions) && i < |actions|
    requires t in states[i].reg.threads && states[i].reg.threads[t].shouldShutdown
    ensures t in states[i + 1].reg.threads ==> states[i + 1].reg.threads[t].shouldShutdown
  {
    InvRun(states, actions, i);
    assert StepAt(states, actions, i);
    if actions[i].Act? {
      WorkerEffect(states[i], actions[i].actor, actions[i].move);
    } else {
      MainTends(states[i], actions[i]);
    }
  }

  // ----- no stale workers

  /**
   Between passes, every registered thread that was not asked to stop belongs to a pool of the
   current configuration and was started with exactly its servers, jobs and URI.
   */
  lemma NoStaleWorkers(states: seq<Sys>, actions: seq<Action>, i: nat, t: Tid)
    requires Behaviour(states, actions) && i < |states| && states[i].main.phase == AtTop
    requires t in states[i].reg.threads && !states[i].reg.threads[t].shouldShutdown
    ensures t in states[i].workers && states[i].workers[t].pool in states[i].main.config.pools
    ensures var w, c := states[i].workers[t], states[i].main.config;
            && w.data.servers == c.servers
            && w.data.jobs == c.pools[w.pool].jobs && w.data.uri == c.pools[w.pool].uri
  {
    InvRun(states, actions, i);
    PoolsEmpty(states[i].main.clears);
  }

  /** Once main is done with clearing a pool, every thread of the pool is marked. */
  lemma ClearedPool(states: seq<Sys>, actions: seq<Action>, i: nat)
    requires Behaviour(states, actions) && i < |actions|
    requires states[i].main.clears != [] && states[i + 1].main.clears == states[i].main.clears[1..]
    ensures Unmarked(states[i + 1].reg, states[i].main.clears[0].pool) == {}
  {
    InvRun(states, actions, i);
    assert StepAt(states, actions, i);
    var s, a := states[i], actions[i];
    var pool := s.main.clears[0].pool;
    if a.Act? {
      WorkerEffect(s, a.actor, a.move);
    } else if a.SendStop? {
      ClearMarksAll(s, a.marks);
      AgreeTouch(s.reg, pool);
      AgreeMark(Touch(s.reg, pool), a.marks);
      assert Unmarked(Touch(s.reg, pool), pool) == Unmarked(s.reg, pool);
    } else if a.Go? {
      CountExact(s, pool);
      assert Members(states[i + 1].reg, pool) == {};
    }
  }

  // ----- capacity

  /** A registration never takes the pool beyond the count being applied, draining threads included. */
  lemma RegistrationFits(states: seq<Sys>, actions: seq<Action>, i: nat)
    requires Behaviour(states, actions) && i < |actions|
    requires actions[i].Act? && actions[i].actor in states[i].workers
    requires states[i].workers[actions[i].actor].pc.Built?
    ensures var pool := states[i].workers[actions[i].actor].pool;
            && Informing(states[i].main) && pool == Current(states[i].main).pool
            && Size(states[i + 1], pool) <= Current(states[i].main).count
  {
    InvRun(states, actions, i);
    assert StepAt(states, actions, i);
    InvRun(states, actions, i + 1);
    WorkerEffect(states[i], actions[i].actor, actions[i].move);
    SizeMoves(states[i], actions[i].actor, states[i + 1]);
  }

  /** Every configuration loaded in the run asks at most `limit` workers of the pool. */
  ghost predicate Asks(actions: seq<Action>, pool: string, limit: nat) {
    forall a :: a in actions && a.BeginPass? && pool in a.next.pools ==> a.next.pools[pool].workerCount <= limit
  }

  ghost predicate WithinLimit(s: Sys, pool: string, limit: nat) {
    Cap(s.hist, pool) <= limit && (pool in s.main.goal.pools ==> s.main.goal.pools[pool].workerCount <= limit)
  }

  lemma LimitMain(s: Sys, a: Action, pool: string, limit: nat)
    requires Structured(s) && Enabled(s, a) && !a.Act? && WithinLimit(s, pool, limit)
    requires a.BeginPass? && pool in a.next.pools ==> a.next.pools[pool].workerCount <= limit
    ensures WithinLimit(Apply(s, a), pool, limit)
  {
    if a.Go? {
      var d := Current(s.main);
      assert d in s.main.clears || d in s.main.news;
    }
  }

  lemma LimitStep(states: seq<Sys>, actions: seq<Action>, i: nat, pool: string, limit: nat)
    requires Behaviour(states, actions) && Asks(actions, pool, limit) && i < |actions|
    requires WithinLimit(states[i], pool, limit)
    ensures WithinLimit(states[i + 1], pool, limit)
  {
    InvRun(states, actions, i);
    assert StepAt(states, actions, i);
    assert actions[i] in actions;
    if actions[i].Act? {
      WorkerEffect(states[i], actions[i].actor, actions[i].move);
    } else {
      LimitMain(states[i], actions[i], pool, limit);
    }
  }

  lemma {:induction false} LimitRun(states: seq<Sys>, actions: seq<Action>, i: nat, pool: string, limit: nat)
    requires Behaviour(states, actions) && Asks(actions, pool, limit) && i < |states|
    ensures WithinLimit(states[i], pool, limit)
  {
    if i > 0 {
      LimitRun(states, actions, i - 1, pool, limit);
      LimitStep(states, actions, i - 1, pool, limit);
    }
  }

  /** No pool ever has more threads than the largest count that any loaded configuration asks. */
  lemma CapacitySafety(states: seq<Sys>, actions: seq<Action>, i: nat, pool: string, limit: nat)
    requires Behaviour(states, actions) && Asks(actions, pool, limit) && i < |states|
    ensures Size(states[i], pool) <= limit
    ensures PoolCount(states[i].reg, pool) == Size(states[i], pool)
  {
    InvRun(states, actions, i);
    LimitRun(states, actions, i, pool, limit);
    CountExact(states[i], pool);
    assert Size(states[i], pool) <= Cap(states[i].hist, pool);
  }

  // ----- no churn

  /** No thread started under the current configuration has been asked to stop. */
  lemma NoChurn(states: seq<Sys>, actions: seq<Action>, i: nat, t: Tid)
    requires Behaviour(states, actions) && i < |states|
    requires t in states[i].reg.threads && t in states[i].workers
    requires states[i].workers[t].epoch == states[i].hist.epoch
    ensures !states[i].reg.threads[t].shouldShutdown
    ensures var pool, goal := states[i].workers[t].pool, states[i].main.goal;
            pool in goal.pools && Size(states[i], pool) <= goal.pools[pool].workerCount
  {
    InvRun(states, actions, i);
  }

  /** A pool of the goal that is at ease and not to be cleared, in a loop that is still going on. */
  ghost predicate LeftAlone(s: Sys, pool: string) {
    s.main.phase in {AtTop, Passing} && pool !in Pools(s.main.clears) && AtEase(s, pool)
  }

  lemma LeftAloneMoves(s: Sys, t: Tid, s': Sys, pool: string)
    requires Base(s) && Counting(s) && (Moves(s, t, s') || Leaves(s, t, s')) && LeftAlone(s, pool)
    ensures LeftAlone(s', pool)
  {
    if Moves(s, t, s') {
      SizeMoves(s, t, s');
    }
    assert Size(s', pool) <= s.main.goal.pools[pool].workerCount;
  }

  lemma LeftAloneGo(s: Sys, pool: string)
    requires Base(s) && Bounded(s) && InformEnabled(s) && LeftAlone(s, pool)
    ensures LeftAlone(InformStep(s), pool)
  {
    CountExact(s, Current(s.main).pool);
    AgreeTouch(s.reg, Current(s.main).pool);
    if s.main.clears != [] {
      PoolsRest(s.main.clears);
    }
  }

  lemma LeftAloneStop(s: Sys, marks: set<Tid>, pool: string)
    requires Base(s) && Enabled(s, SendStop(marks)) && LeftAlone(s, pool)
    ensures LeftAlone(Apply(s, SendStop(marks)), pool)
  {
    StopSucceeds(s, marks);
    MainTends(s, SendStop(marks));
    if s.main.clears != [] {
      PoolsRest(s.main.clears);
    }
  }

  lemma LeftAloneMain(s: Sys, a: Action, pool: string)
    requires Inv(s) && Enabled(s, a) && !a.Act? && LeftAlone(s, pool)
    requires Apply(s, a).hist.epoch == s.hist.epoch && Apply(s, a).main.phase in {AtTop, Passing}
    ensures LeftAlone(Apply(s, a), pool)
  {
    match a
    case Go => LeftAloneGo(s, pool);
    case SendStop(marks) => LeftAloneStop(s, marks, pool);
    case BeginPass(next, clears, news) => SupersedeSelf(next, clears, news);
    case _ =>
  }

  lemma LeftAloneStep(states: seq<Sys>, actions: seq<Action>, i: nat, pool: string)
    requires Behaviour(states, actions) && i < |actions| && LeftAlone(states[i], pool)
    requires states[i + 1].hist.epoch == states[i].hist.epoch && states[i + 1].main.phase in {AtTop, Passing}
    ensures LeftAlone(states[i + 1], pool)
  {
    InvRun(states, actions, i);
    assert StepAt(states, actions, i);
    if actions[i].Act? {
      WorkerEffect(states[i], actions[i].actor, actions[i].move);
      LeftAloneMoves(states[i], actions[i].actor, states[i + 1], pool);
    } else {
      LeftAloneMain(states[i], actions[i], pool);
    }
  }

  /** The step sends no request to stop to the pool and marks none of its threads. */
  ghost predicate Spares(s: Sys, a: Action, s': Sys, pool: string) {
    && !(a.SendStop? && Informing(s.main) && Current(s.main).pool == pool)
    && forall t :: NewlyMarked(s, s', t) ==> s.reg.threads[t].pool != pool
  }

  lemma MovesSpare(s: Sys, t: Tid, s': Sys, a: Action, pool: string)
    requires (Moves(s, t, s') || Leaves(s, t, s')) && a.Act?
    ensures Spares(s, a, s', pool)
  {
  }

  lemma StopSpares(s: Sys, marks: set<Tid>, pool: string)
    requires Base(s) && Enabled(s, SendStop(marks)) && LeftAlone(s, pool)
    ensures Spares(s, SendStop(marks), Apply(s, SendStop(marks)), pool)
  {
    forall t | t in marks
      ensures t in s.reg.threads && s.reg.threads[t].pool != pool
    {
      MembersAgree(s.reg, Current(s.main).pool, t);
    }
  }

  lemma LeftAloneSpares(states: seq<Sys>, actions: seq<Action>, i: nat, pool: string)
    requires Behaviour(states, actions) && i < |actions| && LeftAlone(states[i], pool)
    ensures Spares(states[i], actions[i], states[i + 1], pool)
  {
    InvRun(states, actions, i);
    assert StepAt(states, actions, i);
    if actions[i].Act? {
      WorkerEffect(states[i], actions[i].actor, actions[i].move);
      MovesSpare(states[i], actions[i].actor, states[i + 1], actions[i], pool);
    } else if actions[i].SendStop? {
      StopSpares(states[i], actions[i].marks, pool);
    }
  }

  /**
   Once a pool of the configuration has no more threads than it should, and is not to be cleared
   or stopped, it stays so for as long as the configuration does: whoever its threads are and
   whenever they were started, no request to stop is sent to it again and none of them is marked.
   */
  lemma {:induction false} StaysLeftAlone(states: seq<Sys>, actions: seq<Action>, i: nat, j: nat, pool: string)
    requires Behaviour(states, actions) && i <= j < |states| && states[i].hist.epoch == states[j].hist.epoch
    requires forall k :: i <= k <= j ==> states[k].main.phase in {AtTop, Passing}
    requires LeftAlone(states[i], pool)
    ensures LeftAlone(states[j], pool)
    ensures forall k :: i <= k < j ==> Spares(states[k], actions[k], states[k + 1], pool)
  {
    if i < j {
      EpochRun(states, actions, i, j - 1);
      EpochRun(states, actions, j - 1, j);
      StaysLeftAlone(states, actions, i, j - 1, pool);
      LeftAloneStep(states, actions, j - 1, pool);
      LeftAloneSpares(states, actions, j - 1, pool);
    }
  }

  /** The threads that can still be asked to stop before the configuration changes. */
  ghost function Candidates(s: Sys): set<Tid> {
    set t | t in s.reg.threads && t in s.workers &&
      !s.reg.threads[t].shouldShutdown && s.workers[t].epoch < s.hist.epoch
  }

  ghost predicate NewlyMarked(s: Sys, s': Sys, t: Tid) {
    && t in s.reg.threads && !s.reg.threads[t].shouldShutdown
    && t in s'.reg.threads && s'.reg.threads[t].shouldShutdown
  }

  /** A step after which there are no new candidates, and none marked but candidates. */
  ghost predicate Shrinks(s: Sys, s': Sys) {
    && Candidates(s') <= Candidates(s)
    && forall t :: NewlyMarked(s, s', t) ==> t in Candidates(s)
  }

  lemma CandidatesMoves(s: Sys, t: Tid, s': Sys)
    requires Owned(s) && Newborn(s) && (Moves(s, t, s') || Leaves(s, t, s'))
    ensures Shrinks(s, s')
  {
  }

  lemma CandidatesTended(s: Sys, s': Sys)
    requires Owned(s) && Settled(s) && Unchurned(s') && RegistryTended(s.reg, s'.reg)
    requires s'.hist.epoch == s.hist.epoch
    requires forall t :: t in s.workers ==> t in s'.workers && s'.workers[t] == s.workers[t]
    ensures Shrinks(s, s')
  {
  }

  lemma CandidatesMain(s: Sys, a: Action)
    requires Owned(s) && Settled(s) && Unchurned(s) && Enabled(s, a) && !a.Act?
    requires Apply(s, a).hist.epoch == s.hist.epoch
    ensures Shrinks(s, Apply(s, a))
  {
    UnchurnedMain(s, a);
    MainTends(s, a);
    CandidatesTended(s, Apply(s, a));
  }

  lemma CandidatesStep(states: seq<Sys>, actions: seq<Action>, i: nat)
    requires Behaviour(states, actions) && i < |actions| && states[i + 1].hist.epoch == states[i].hist.epoch
    ensures Shrinks(states[i], states[i + 1])
  {
    InvRun(states, actions, i);
    assert StepAt(states, actions, i);
    if actions[i].Act? {
      WorkerEffect(states[i], actions[i].actor, actions[i].move);
      CandidatesMoves(states[i], actions[i].actor, states[i + 1]);
    } else {
      CandidatesMain(states[i], actions[i]);
    }
  }

  lemma EpochGrows(states: seq<Sys>, actions: seq<Action>, i: nat)
    requires Behaviour(states, actions) && i < |actions|
    ensures states[i].hist.epoch <= states[i + 1].hist.epoch
  {
    InvRun(states, actions, i);
    assert StepAt(states, actions, i);
    if actions[i].Act? {
      WorkerEffect(states[i], actions[i].actor, actions[i].move);
    }
  }

  lemma {:induction false} EpochRun(states: seq<Sys>, actions: seq<Action>, i: nat, j: nat)
    requires Behaviour(states, actions) && i <= j < |states|
    ensures states[i].hist.epoch <= states[j].hist.epoch
  {
    if i < j {
      EpochRun(states, actions, i, j - 1);
      EpochGrows(states, actions, j - 1);
    }
  }

  /**
   While the configuration does not change, only threads that predate it can be asked to stop,
   and their number only shrinks.
   */
  lemma {:induction false} CandidatesShrink(states: seq<Sys>, actions: seq<Action>, i: nat, j: nat)
    requires Behaviour(states, actions) && i <= j < |states| && states[i].hist.epoch == states[j].hist.epoch
    ensures Candidates(states[j]) <= Candidates(states[i])
    ensures forall k, t :: i <= k < j && NewlyMarked(states[k], states[k + 1], t) ==> t in Candidates(states[i])
  {
    if i < j {
      EpochRun(states, actions, i, j - 1);
      EpochRun(states, actions, j - 1, j);
      CandidatesShrink(states, actions, i, j - 1);
      CandidatesStep(states, actions, j - 1);
    }
  }

  // ----- shutdown

  /** A shutdown was requested and every pool has been informed. */
  ghost predicate ShutDown(s: Sys) {
    s.force && !Informing(s.main)
  }

  /**
   After a shutdown every registered thread is marked, whatever pool of whatever configuration it
   comes from, and no thread is under construction.
   */
  lemma TotalShutdown(states: seq<Sys>, actions: seq<Action>, i: nat)
    requires Behaviour(states, actions) && i < |states| && ShutDown(states[i])
    ensures forall t :: t in states[i].reg.threads ==> states[i].reg.threads[t].shouldShutdown
    ensures forall t :: t in states[i].workers ==> !Unsignalled(states[i].workers[t].pc)
  {
    InvRun(states, actions, i);
    PoolsEmpty(states[i].main.clears);
  }

  /** How far a thread that finds itself marked is from its end. */
  function Distance(pc: Pc): nat {
    if InRun(pc) then 10 else
      match pc
      case Finish => 9
      case FinishActive => 8
      case FinishIdled => 7
      case NoteIdle => 6
      case CheckForce => 5
      case CheckMark => 5
      case Exiting => 4
      case Leaving => 3
      case LeaveActive => 2
      case LeaveIdled => 1
      case Ended(_) => 0
      case _ => 11
  }

  /**
   From then on nothing starts, no check lets a thread begin another `run`, and every step takes
   its thread closer to its end unless it is inside the `run` that it was in.
   */
  lemma ShutDownStep(s: Sys, a: Action)
    requires Inv(s) && Enabled(s, a) && ShutDown(s)
    ensures var s' := Apply(s, a);
            && ShutDown(s') && s'.workers.Keys <= s.workers.Keys && s'.reg.threads.Keys <= s.reg.threads.Keys
            && (a.Act? ==>
                  var w := s.workers[a.actor];
                  && (w.pc.CheckForce? || w.pc.CheckMark? ==> s'.workers[a.actor].pc.Exiting?)
                  && (w.pc.Ended? ==> a.actor !in s'.workers)
                  && (!w.pc.Ended? ==>
                        || Distance(s'.workers[a.actor].pc) < Distance(w.pc)
                        || (InRun(w.pc) && InRun(s'.workers[a.actor].pc))))
  {
    if a.Act? {
      ShutDownWorker(s, a.actor, a.move);
    }
  }

  lemma ShutDownWorker(s: Sys, t: Tid, move: Move)
    requires Inv(s) && WorkerEnabled(s, t, move) && ShutDown(s)
    ensures var s', w := WorkerStep(s, t, move), s.workers[t];
            && ShutDown(s') && s'.workers.Keys <= s.workers.Keys && s'.reg.threads.Keys <= s.reg.threads.Keys
            && (w.pc.Ended? ==> t !in s'.workers)
            && (!w.pc.Ended? ==>
                  && (w.pc.CheckForce? || w.pc.CheckMark? ==> s'.workers[t].pc.Exiting?)
                  && (Distance(s'.workers[t].pc) < Distance(w.pc) || (InRun(w.pc) && InRun(s'.workers[t].pc))))
  {
    PoolsEmpty(s.main.clears);
    WorkerEffect(s, t, move);
    if !s.workers[t].pc.Ended? {
      assert s.workers[t].pc.CheckMark? ==> Marked(s, t);
      ShutDownMove(s.workers[t], move, Marked(s, t));
    }
  }

  lemma ShutDownMove(w: Worker, move: Move, marked: bool)
    requires MoveEnabled(w, move) && !w.pc.Ended? && !HoldsLock(w.pc) && !w.pc.Spawned? && (w.pc.CheckMark? ==> marked)
    ensures var w' := NextWorker(w, move, true, marked);
            && (w.pc.CheckForce? || w.pc.CheckMark? ==> w'.pc.Exiting?)
            && (Distance(w'.pc) < Distance(w.pc) || (InRun(w.pc) && InRun(w'.pc)))
  {
  }

  lemma ShutDownPersists(states: seq<Sys>, actions: seq<Action>, i: nat)
    requires Behaviour(states, actions) && i < |actions| && ShutDown(states[i])
    ensures ShutDown(states[i + 1]) && states[i + 1].workers.Keys <= states[i].workers.Keys
    ensures !actions[i].Spawn? && !BeginsRun(states[i], states[i + 1])
  {
    InvRun(states, actions, i);
    assert StepAt(states, actions, i);
    ShutDownStep(states[i], actions[i]);
    if !actions[i].Act? {
      assert states[i + 1].workers == states[i].workers;
    }
  }

  /** The steps that a thread has left outside calls of `run`, its last one included. */
  ghost function StepsLeft(): Worker -> int {
    (w: Worker) => Distance(w.pc) + 1
  }

  /** A worker's step that is not inside a call of `run`. */
  ghost predicate StepsOutside(s: Sys, a: Action) {
    a.Act? && a.actor in s.workers && !InRun(s.workers[a.actor].pc)
  }

  lemma ShutDownMeasure(s: Sys, a: Action)
    requires Inv(s) && Enabled(s, a) && ShutDown(s)
    ensures (if StepsOutside(s, a) then 1 else 0) + Total(Apply(s, a).workers, StepsLeft())
            <= Total(s.workers, StepsLeft())
  {
    ShutDownStep(s, a);
    if !a.Act? {
      MainSilent(s, a);
    } else {
      WorkerEffect(s, a.actor, a.move);
      ShutDownTotal(s, a.actor, Apply(s, a));
    }
  }

  lemma ShutDownTotal(s: Sys, t: Tid, s': Sys)
    requires Moves(s, t, s') || Leaves(s, t, s')
    requires Moves(s, t, s') ==>
               || Distance(s'.workers[t].pc) < Distance(s.workers[t].pc)
               || (InRun(s.workers[t].pc) && InRun(s'.workers[t].pc))
    ensures (if InRun(s.workers[t].pc) then 0 else 1) + Total(s'.workers, StepsLeft()) <= Total(s.workers, StepsLeft())
  {
    if Moves(s, t, s') {
      TotalUpdate(s.workers, StepsLeft(), t, s'.workers[t]);
    } else {
      TotalRemove(s.workers, StepsLeft(), t);
    }
  }

  ghost function OutsideCount(states: seq<Sys>, actions: seq<Action>, i: nat, j: nat): nat
    requires i <= j <= |actions| < |states|
  {
    if i == j then 0
    else OutsideCount(states, actions, i, j - 1) + if StepsOutside(states[j - 1], actions[j - 1]) then 1 else 0
  }

  lemma ShutDownCounts(states: seq<Sys>, actions: seq<Action>, i: nat)
    requires Behaviour(states, actions) && i < |actions| && ShutDown(states[i])
    ensures (if StepsOutside(states[i], actions[i]) then 1 else 0) + Total(states[i + 1].workers, StepsLeft())
            <= Total(states[i].workers, StepsLeft())
  {
    InvRun(states, actions, i);
    assert StepAt(states, actions, i);
    ShutDownMeasure(states[i], actions[i]);
  }

  /**
   After a shutdown all the threads together take no more steps outside the calls of `run` that
   they are in than their distances from the end allow: once those calls return, everybody ends.
   */
  lemma {:induction false} ShutDownBounded(states: seq<Sys>, actions: seq<Action>, i: nat, j: nat)
    requires Behaviour(states, actions) && i <= j < |states| && ShutDown(states[i])
    ensures OutsideCount(states, actions, i, j) + Total(states[j].workers, StepsLeft())
            <= Total(states[i].workers, StepsLeft())
  {
    if i < j {
      ShutDownBounded(states, actions, i, j - 1);
      NothingStartsAfterShutdown(states, actions, i, j - 1);
      ShutDownCounts(states, actions, j - 1);
    }
  }

  /** Some thread's check lets it begin a call of the client's `run`. */
  ghost predicate BeginsRun(s: Sys, s': Sys) {
    exists t :: BeginsRunOf(s, s', t)
  }

  /** And each of them can go on whenever it is not inside a call. */
  lemma ShutDownNeverStuck(s: Sys, t: Tid)
    requires Inv(s) && ShutDown(s) && t in s.workers && !InRun(s.workers[t].pc)
    ensures Enabled(s, Act(t, Proceed))
  {
    assert !Unsignalled(s.workers[t].pc);
  }

  lemma {:induction false} NothingStartsAfterShutdown(states: seq<Sys>, actions: seq<Action>, i: nat, j: nat)
    requires Behaviour(states, actions) && i <= j < |states| && ShutDown(states[i])
    ensures ShutDown(states[j]) && states[j].workers.Keys <= states[i].workers.Keys
    ensures forall k :: i <= k < j ==> !actions[k].Spawn? && !BeginsRun(states[k], states[k + 1])
  {
    if i < j {
      NothingStartsAfterShutdown(states, actions, i, j - 1);
      ShutDownPersists(states, actions, j - 1);
    }
  }

  // ----- the last call of run

  ghost predicate BeginsRunOf(s: Sys, s': Sys, t: Tid) {
    t in s.workers && t in s'.workers && s.workers[t].pc.CheckMark? && s'.workers[t].pc.Running?
  }

  /** The second check is reached only past the first. */
  lemma ForceChecks(w: Worker, move: Move, force: bool, marked: bool)
    requires MoveEnabled(w, move) && !w.pc.Ended? && force
    ensures !NextWorker(w, move, force, marked).pc.CheckMark?
  {
  }

  lemma ForceStays(s: Sys, a: Action)
    requires Owned(s) && Enabled(s, a) && s.force
    ensures Apply(s, a).force
  {
    if a.Act? {
      WorkerEffect(s, a.actor, a.move);
    }
  }

  /** A thread that is not between its two checks does not get there any more. */
  lemma ForceWorker(s: Sys, t: Tid, move: Move, u: Tid)
    requires Owned(s) && WorkerEnabled(s, t, move) && s.force
    requires !(u in s.workers && s.workers[u].pc.CheckMark?)
    ensures !(u in WorkerStep(s, t, move).workers && WorkerStep(s, t, move).workers[u].pc.CheckMark?)
  {
    WorkerEffect(s, t, move);
    if !s.workers[t].pc.Ended? {
      ForceChecks(s.workers[t], move, s.force, Marked(s, t));
    }
  }

  lemma ForceStep(states: seq<Sys>, actions: seq<Action>, i: nat, t: Tid)
    requires Behaviour(states, actions) && i < |actions| && states[i].force
    ensures states[i + 1].force
    ensures t in states[i + 1].workers && states[i + 1].workers[t].pc.CheckMark? ==>
              t in states[i].workers && states[i].workers[t].pc.CheckMark?
  {
    InvRun(states, actions, i);
    assert StepAt(states, actions, i);
    ForceStays(states[i], actions[i]);
    if actions[i].Act? && !(t in states[i].workers && states[i].workers[t].pc.CheckMark?) {
      ForceWorker(states[i], actions[i].actor, actions[i].move, t);
    }
  }

  /**
   After a shutdown is requested a thread begins another `run` only if it was already between its
   two checks, where it has stayed since; so it begins one at most.
   */
  lemma {:induction false} OneLastRun(states: seq<Sys>, actions: seq<Action>, i: nat, k: nat, t: Tid)
    requires Behaviour(states, actions) && i <= k < |states| && states[i].force
    ensures states[k].force
    ensures t in states[k].workers && states[k].workers[t].pc.CheckMark? ==>
              forall m :: i <= m <= k ==> t in states[m].workers && states[m].workers[t].pc.CheckMark?
    decreases k
  {
    if i < k {
      OneLastRun(states, actions, i, k - 1, t);
      ForceStep(states, actions, k - 1, t);
    }
  }

  lemma AtMostOneLastRun(states: seq<Sys>, actions: seq<Action>, i: nat, j: nat, k: nat, t: Tid)
    requires Behaviour(states, actions) && i <= j < k < |actions| && states[i].force
    ensures !(BeginsRunOf(states[j], states[j + 1], t) && BeginsRunOf(states[k], states[k + 1], t))
  {
    OneLastRun(states, actions, i, k, t);
  }

  /** The thread is registered in each of the states. */
  ghost predicate StaysRegistered(states: seq<Sys>, i: nat, k: nat, t: Tid)
    requires k < |states|
  {
    forall m :: i <= m <= k ==> t in states[m].reg.threads
  }

  /** A marked thread begins no further `run`. */
  lemma {:induction false} MarkedNeverRuns(states: seq<Sys>, actions: seq<Action>, i: nat, k: nat, t: Tid)
    requires Behaviour(states, actions) && i <= k < |actions| && StaysRegistered(states, i, k, t)
    requires states[i].reg.threads[t].shouldShutdown
    ensures states[k].reg.threads[t].shouldShutdown && !BeginsRunOf(states[k], states[k + 1], t)
    decreases k
  {
    if i < k {
      MarkedNeverRuns(states, actions, i, k - 1, t);
      MarksStay(states, actions, k - 1, t);
    }
    MarkedExits(states, actions, k, t);
  }

  lemma MarkedChecks(w: Worker, move: Move, force: bool)
    requires MoveEnabled(w, move) && w.pc.CheckMark?
    ensures NextWorker(w, move, force, true).pc.Exiting?
  {
  }

  lemma MarkedExits(states: seq<Sys>, actions: seq<Action>, i: nat, t: Tid)
    requires Behaviour(states, actions) && i < |actions|
    requires t in states[i].reg.threads && states[i].reg.threads[t].shouldShutdown
    ensures !BeginsRunOf(states[i], states[i + 1], t)
  {
    InvRun(states, actions, i);
    assert StepAt(states, actions, i);
    if actions[i].Act? {
      MarkedWorker(states[i], actions[i].actor, actions[i].move, t);
    }
  }

  lemma MarkedWorker(s: Sys, t: Tid, move: Move, u: Tid)
    requires Owned(s) && WorkerEnabled(s, t, move) && Marked(s, u)
    ensures !BeginsRunOf(s, WorkerStep(s, t, move), u)
  {
    WorkerEffect(s, t, move);
    if t == u && s.workers[t].pc.CheckMark? {
      MarkedChecks(s.workers[t], move, s.force);
    }
  }

  // ----- the end of main

  /** Main has left its loop, by shutdown or by an exception. */
  ghost predicate Over(s: Sys) {
    s.main.phase in {Finished, Aborted, Released}
  }

  /** What takes main out of its loop, and where each leaves it. */
  function EndOf(a: Action): Phase {
    match a
    case EndShutdown => Finished
    case ReleaseRegistry => Released
    case _ => Aborted
  }

  lemma OverMain(s: Sys, a: Action)
    requires Structured(s) && Enabled(s, a) && !a.Act?
    ensures Over(Apply(s, a)) <==> a in {EndShutdown, ReleaseRegistry, LoadFails, SpawnFails}
    ensures Over(Apply(s, a)) ==> Apply(s, a).main.phase == EndOf(a) && Apply(s, a).workers == s.workers
    ensures Over(s) ==> a == ReleaseRegistry
  {
  }

  lemma OverStep(states: seq<Sys>, actions: seq<Action>, i: nat)
    requires Behaviour(states, actions) && i < |actions|
    ensures actions[i].Act? ==>
              states[i + 1].main.phase == states[i].main.phase && states[i + 1].workers.Keys <= states[i].workers.Keys
    ensures !actions[i].Act? ==>
              && (Over(states[i + 1]) <==> actions[i] in {EndShutdown, ReleaseRegistry, LoadFails, SpawnFails})
              && (Over(states[i + 1]) ==>
                    states[i + 1].main.phase == EndOf(actions[i]) && states[i + 1].workers == states[i].workers)
              && (Over(states[i]) ==> actions[i] == ReleaseRegistry)
  {
    InvRun(states, actions, i);
    assert StepAt(states, actions, i);
    if actions[i].Act? {
      WorkerEffect(states[i], actions[i].actor, actions[i].move);
    } else {
      OverMain(states[i], actions[i]);
    }
  }

  /**
   A failed load, a thread that cannot be started and the end of shutdown take main out of its
   loop for good: all that is left for it to do is to let go of the registry, and the other
   threads can only leave.
   */
  lemma {:induction false} MainEnds(states: seq<Sys>, actions: seq<Action>, i: nat, j: nat)
    requires Behaviour(states, actions) && i < j < |states|
    requires actions[i] in {EndShutdown, ReleaseRegistry, LoadFails, SpawnFails}
    ensures states[i + 1].main.phase == EndOf(actions[i])
    ensures Over(states[j]) && states[j].workers.Keys <= states[i].workers.Keys
    ensures forall k :: i < k < j ==> actions[k].Act? || actions[k] == ReleaseRegistry
    decreases j
  {
    if j == i + 1 {
      OverStep(states, actions, i);
    } else {
      MainEnds(states, actions, i, j - 1);
      OverStep(states, actions, j - 1);
    }
  }
}
