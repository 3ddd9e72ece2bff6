/**
 What the reconciler keeps while workers leave whenever they like: no pool outgrows what was
 asked of it, no unmarked thread works on outdated data, and no thread of the current
 configuration is ever asked to stop.
 */
module Reconcile {
  import opened Common
  import opened Registry
  import opened Configs
  import opened Protocol
  import opened Handshake

  ghost predicate Base(s: Sys) {
    && !s.failed && Owned(s) && Locking(s) && Shaking(s) && Structured(s) && Newborn(s)
  }

  ghost function Size(s: Sys, pool: string): nat {
    |Members(s.reg, pool)|
  }

  // ----- capacity

  /** No pool has more threads, draining ones included, than were ever asked for. */
  ghost predicate Bounded(s: Sys) {
    && (forall p :: Size(s, p) <= Cap(s.hist, p))
    && (forall p :: p in s.hist.caps ==> s.hist.caps[p] < UINT32_MODULUS)
  }

  /** Where `inform` stands fits the pool that it works on, whoever has left since it counted. */
  ghost predicate Counting(s: Sys) {
    Informing(s.main) && !s.main.inform.ReadCount? ==>
      var d := Current(s.main);
      && d.count <= Cap(s.hist, d.pool)
      && match s.main.inform
         case ReadCount => true
         case Stopping(k) => Size(s, d.pool) <= k + d.count
         case TakeLock(left) => Size(s, d.pool) + left <= d.count
         case ResetWakeup(left) => Size(s, d.pool) + left <= d.count
         case Spawning(left) => Size(s, d.pool) + left <= d.count
         case Detach(left) => Size(s, d.pool) + left <= d.count + 1
         case DropLock(left) => Size(s, d.pool) + left <= d.count + 1
         case _ => Size(s, d.pool) + s.main.inform.left <= d.count + if UnderConstruction(s) then 0 else 1
  }

  lemma MembersMove(r: RegistryState, r': RegistryState, t: Tid, w: Worker, p: string)
    requires RegistryMoves(r, r', t, w)
    ensures |Members(r', p)| <= |Members(r, p)| + if w.pc.Built? && p == w.pool then 1 else 0
  {
    if w.pc.Exiting? {
      SubsetCardinality(Members(r', p), Members(r, p));
    }
  }

  /** Only its registration ends a thread's construction, and it is for the pool being informed. */
  lemma ConstructionEnds(s: Sys, t: Tid, s': Sys)
    requires Shaking(s) && Newborn(s) && Moves(s, t, s')
    ensures s.workers[t].pc.Built? ==>
              && Informing(s.main) && s.workers[t].pool == Current(s.main).pool
              && UnderConstruction(s) && !UnderConstruction(s')
    ensures !s.workers[t].pc.Built? ==> (UnderConstruction(s') <==> UnderConstruction(s))
  {
  }

  /** The only pool that a worker's step can enlarge is the one being informed. */
  lemma SizeMoves(s: Sys, t: Tid, s': Sys)
    requires Base(s) && Moves(s, t, s')
    ensures forall p :: Size(s', p) <= Size(s, p) + if s.workers[t].pc.Built? && p == s.workers[t].pool then 1 else 0
    ensures s.workers[t].pc.Built? ==>
              && Informing(s.main) && s.workers[t].pool == Current(s.main).pool
              && UnderConstruction(s) && !UnderConstruction(s')
    ensures !s.workers[t].pc.Built? ==> (UnderConstruction(s') <==> UnderConstruction(s))
  {
    ConstructionEnds(s, t, s');
    forall p
      ensures Size(s', p) <= Size(s, p) + if s.workers[t].pc.Built? && p == s.workers[t].pool then 1 else 0
    {
      MembersMove(s.reg, s'.reg, t, s.workers[t], p);
    }
  }

  lemma CapacityMoves(s: Sys, t: Tid, s': Sys)
    requires Base(s) && Bounded(s) && Counting(s) && Moves(s, t, s')
    ensures Bounded(s') && Counting(s')
  {
    SizeMoves(s, t, s');
  }

  lemma CapacityLeaves(s: Sys, t: Tid, s': Sys)
    requires Base(s) && Bounded(s) && Counting(s) && Leaves(s, t, s')
    ensures Bounded(s') && Counting(s')
  {
    forall p
      ensures Size(s', p) <= Cap(s'.hist, p)
    {
      assert Size(s, p) <= Cap(s.hist, p);
    }
  }

  /** The narrowed count is the count. */
  lemma CountExact(s: Sys, pool: string)
    requires Bounded(s)
    ensures PoolCount(s.reg, pool) == Size(s, pool)
  {
    assert Size(s, pool) <= Cap(s.hist, pool);
  }

  lemma BoundedMain(s: Sys, a: Action)
    requires Base(s) && Bounded(s) && Enabled(s, a) && !a.Act?
    ensures Bounded(Apply(s, a))
  {
    MainTends(s, a);
    var s' := Apply(s, a);
    forall p
      ensures Size(s', p) <= Cap(s'.hist, p)
    {
      assert Size(s, p) <= Cap(s.hist, p);
    }
  }

  lemma CountingGo(s: Sys)
    requires Base(s) && Bounded(s) && Counting(s) && InformEnabled(s)
    ensures Counting(InformStep(s))
  {
    CountExact(s, Current(s.main).pool);
    AgreeTouch(s.reg, Current(s.main).pool);
  }

  lemma CountingMain(s: Sys, a: Action)
    requires Base(s) && Bounded(s) && Counting(s) && Enabled(s, a) && !a.Act?
    ensures Counting(Apply(s, a))
  {
    if a.Go? {
      CountingGo(s);
    }
  }

  // ----- no stale worker

  /** The thread was started with what the configuration says about its pool. */
  ghost predicate Fresh(w: Worker, c: Config) {
    w.pool in c.pools && w.data == DataFor(c, w.pool)
  }

  /** An unmarked thread fits the goal, or its pool is still to be cleared. */
  ghost predicate NoStale(s: Sys) {
    forall t :: t in s.reg.threads && !s.reg.threads[t].shouldShutdown ==>
      t in s.workers && (Fresh(s.workers[t], s.main.goal) || s.workers[t].pool in Pools(s.main.clears))
  }

  lemma NoStaleMoves(s: Sys, t: Tid, s': Sys)
    requires Base(s) && NoStale(s) && (Moves(s, t, s') || Leaves(s, t, s'))
    ensures NoStale(s')
  {
  }

  /** Threads that fitted the old configuration fit the new one or get their pool cleared. */
  lemma NoStaleBegins(w: Worker, c: Config, next: Config, clears: seq<Directive>, news: seq<Directive>)
    requires Fresh(w, c) && IsSupersede(c, next, clears, news)
    ensures Fresh(w, next) || w.pool in Pools(clears)
  {
    assert w.pool in Outdated(c, next) || DataFor(c, w.pool) == DataFor(next, w.pool);
  }

  /** Clearing a pool marks all of it, even though counting and marking are separate steps. */
  lemma ClearMarksAll(s: Sys, marks: set<Tid>)
    requires Base(s) && Counting(s) && s.main.clears != [] && Enabled(s, SendStop(marks))
    ensures marks == Unmarked(s.reg, Current(s.main).pool)
  {
    var p := Current(s.main).pool;
    SubsetCardinality(Unmarked(s.reg, p), Members(s.reg, p));
    SubsetCardinality(marks, Unmarked(s.reg, p));
  }

  lemma PoolsRest(ds: seq<Directive>)
    requires ds != []
    ensures Pools(ds) == {ds[0].pool} + Pools(ds[1..])
  {
    assert forall d :: d in ds <==> d == ds[0] || d in ds[1..];
  }

  /** A pool to be cleared is done with once none of its threads is unmarked. */
  lemma NoStaleDone(s: Sys, s': Sys)
    requires Owned(s) && NoStale(s) && RegistryTended(s.reg, s'.reg) && s'.workers == s.workers
    requires s'.main.goal == s.main.goal && s.main.clears != [] && s'.main.clears == s.main.clears[1..]
    requires Unmarked(s'.reg, s.main.clears[0].pool) == {}
    ensures NoStale(s')
  {
    PoolsRest(s.main.clears);
    forall t | t in s'.reg.threads && !s'.reg.threads[t].shouldShutdown
      ensures s.workers[t].pool != s.main.clears[0].pool
    {
      MembersAgree(s'.reg, s.workers[t].pool, t);
      assert t in Unmarked(s'.reg, s.workers[t].pool);
    }
  }

  lemma NoStaleTended(s: Sys, s': Sys)
    requires NoStale(s) && RegistryTended(s.reg, s'.reg) && s'.workers == s.workers
    requires s'.main.goal == s.main.goal && s'.main.clears == s.main.clears
    ensures NoStale(s')
  {
  }

  lemma NoStaleStop(s: Sys, marks: set<Tid>)
    requires Base(s) && Counting(s) && NoStale(s) && Enabled(s, SendStop(marks))
    ensures NoStale(Apply(s, SendStop(marks)))
  {
    StopSucceeds(s, marks);
    MainTends(s, SendStop(marks));
    if s.main.clears != [] {
      ClearMarksAll(s, marks);
      AgreeTouch(s.reg, Current(s.main).pool);
      AgreeMark(Touch(s.reg, Current(s.main).pool), marks);
      NoStaleDone(s, Apply(s, SendStop(marks)));
    } else {
      NoStaleTended(s, Apply(s, SendStop(marks)));
    }
  }

  lemma NoStaleGo(s: Sys)
    requires Base(s) && Bounded(s) && NoStale(s) && InformEnabled(s)
    ensures NoStale(InformStep(s))
  {
    MainTends(s, Go);
    CountExact(s, Current(s.main).pool);
    if s.main.clears != [] && InformStep(s).main.clears != s.main.clears {
      NoStaleDone(s, InformStep(s));
    } else {
      NoStaleTended(s, InformStep(s));
    }
  }

  lemma NoStaleMain(s: Sys, a: Action)
    requires Base(s) && Bounded(s) && Counting(s) && NoStale(s) && Enabled(s, a) && !a.Act?
    ensures NoStale(Apply(s, a))
  {
    match a
    case SendStop(marks) => NoStaleStop(s, marks);
    case Go => NoStaleGo(s);
    case BeginPass(next, clears, news) =>
      PoolsEmpty(s.main.clears);
      forall t | t in s.reg.threads && !s.reg.threads[t].shouldShutdown
        ensures Fresh(s.workers[t], next) || s.workers[t].pool in Pools(clears)
      {
        NoStaleBegins(s.workers[t], s.main.config, next, clears, news);
      }
    case BeginShutdown(stops) => PoolsEmpty(s.main.clears);
    case _ =>
  }

  // ----- no churn

  /** The pool has no more threads than it should, and none of them is about to be stopped. */
  ghost predicate AtEase(s: Sys, pool: string) {
    && pool in s.main.goal.pools && Size(s, pool) <= s.main.goal.pools[pool].workerCount
    && !(s.main.inform.Stopping? && Informing(s.main) && Current(s.main).pool == pool)
  }

  /**
   Threads of the current configuration are in pools that have no more than they should, and
   never in one that is being cleared or stopped.
   */
  ghost predicate Settled(s: Sys) {
    forall t :: t in s.workers ==>
      var w := s.workers[t];
      && w.epoch <= s.hist.epoch
      && (w.epoch == s.hist.epoch ==> s.main.clears == [] && AtEase(s, w.pool))
  }

  lemma SettledMoves(s: Sys, t: Tid, s': Sys)
    requires Base(s) && Counting(s) && Settled(s) && (Moves(s, t, s') || Leaves(s, t, s'))
    ensures Settled(s')
  {
    if Moves(s, t, s') {
      SizeMoves(s, t, s');
    }
  }

  lemma SettledGo(s: Sys)
    requires Base(s) && Bounded(s) && Settled(s) && InformEnabled(s)
    ensures Settled(InformStep(s))
  {
    var p := Current(s.main).pool;
    CountExact(s, p);
    AgreeTouch(s.reg, p);
  }

  lemma SettledMain(s: Sys, a: Action)
    requires Base(s) && Bounded(s) && Counting(s) && Settled(s) && Enabled(s, a) && !a.Act?
    ensures Settled(Apply(s, a))
  {
    MainTends(s, a);
    if a.Go? {
      SettledGo(s);
    } else if a.BeginPass? && a.next == s.main.config {
      SupersedeSelf(s.main.config, a.clears, a.news);
    }
  }

  /** A thread of the current configuration is never asked to stop. */
  ghost predicate Unchurned(s: Sys) {
    forall t :: t in s.reg.threads && t in s.workers && s.workers[t].epoch == s.hist.epoch ==>
      !s.reg.threads[t].shouldShutdown
  }

  lemma UnchurnedMoves(s: Sys, t: Tid, s': Sys)
    requires Base(s) && Unchurned(s) && (Moves(s, t, s') || Leaves(s, t, s'))
    ensures Unchurned(s')
  {
  }

  lemma UnchurnedStop(s: Sys, marks: set<Tid>)
    requires Owned(s) && Settled(s) && Unchurned(s) && Enabled(s, SendStop(marks))
    ensures Unchurned(Apply(s, SendStop(marks)))
  {
    var p := Current(s.main).pool;
    forall t | t in marks
      ensures t in s.workers && s.workers[t].pool == p
    {
      MembersAgree(s.reg, p, t);
    }
  }

  lemma UnchurnedMain(s: Sys, a: Action)
    requires Owned(s) && Settled(s) && Unchurned(s) && Enabled(s, a) && !a.Act?
    ensures Unchurned(Apply(s, a))
  {
    if a.SendStop? {
      UnchurnedStop(s, a.marks);
    }
  }

  // ----- all of it

  ghost predicate Inv(s: Sys) {
    Base(s) && Bounded(s) && Counting(s) && NoStale(s) && Settled(s) && Unchurned(s)
  }

  lemma InvInit(s: Sys)
    requires IsStart(s)
    ensures Inv(s)
  {
  }

  lemma InvWorker(s: Sys, t: Tid, move: Move)
    requires Inv(s) && WorkerEnabled(s, t, move)
    ensures Inv(WorkerStep(s, t, move))
  {
    var s' := WorkerStep(s, t, move);
    WorkerEffect(s, t, move);
    LockingMoves(s, t, s');
    ShakingMoves(s, t, s');
    StructuredMoves(s, t, s');
    NewbornMoves(s, t, s');
    if Moves(s, t, s') {
      OwnedMoves(s, t, s');
      CapacityMoves(s, t, s');
    } else {
      OwnedLeaves(s, t, s');
      CapacityLeaves(s, t, s');
    }
    NoStaleMoves(s, t, s');
    SettledMoves(s, t, s');
    UnchurnedMoves(s, t, s');
  }

  lemma InvMain(s: Sys, a: Action)
    requires Inv(s) && Enabled(s, a) && !a.Act?
    ensures Inv(Apply(s, a))
  {
    OwnedMain(s, a);
    LockingMain(s, a);
    ShakingMain(s, a);
    StructuredMain(s, a);
    NewbornMain(s, a);
    BoundedMain(s, a);
    CountingMain(s, a);
    NoStaleMain(s, a);
    SettledMain(s, a);
    UnchurnedMain(s, a);
  }

  lemma InvStep(s: Sys, a: Action)
    requires Inv(s) && Enabled(s, a)
    ensures Inv(Apply(s, a))
  {
    if a.Act? {
      InvWorker(s, a.actor, a.move);
    } else {
      InvMain(s, a);
    }
  }

  /** A run of the program, from its start. */
  ghost predicate Behaviour(states: seq<Sys>, actions: seq<Action>) {
    IsRun(states, actions) && IsStart(states[0])
  }

  /** Every state of every run satisfies the invariant. */
  lemma {:induction false} InvRun(states: seq<Sys>, actions: seq<Action>, i: nat)
    requires Behaviour(states, actions) && i < |states|
    ensures Inv(states[i])
  {
    if i == 0 {
      InvInit(states[0]);
    } else {
      InvRun(states, actions, i - 1);
      assert StepAt(states, actions, i - 1);
      InvStep(states[i - 1], actions[i - 1]);
    }
  }
}
