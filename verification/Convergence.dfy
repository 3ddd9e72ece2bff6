/**
 How the pools follow the configuration: never above it between passes; after a pass, by a number
 that the state before the pass decides; and exactly at it only where nobody was on the way out.
 */
module Convergence {
  import opened Common
  import opened Registry
  import opened Configs
  import opened Protocol
  import opened Handshake
  import opened Reconcile

  // ----- one stop

  /** The request marks as many as it can, in its own pool only. */
  lemma StopMarks(r: RegistryState, p: string, surplus: uint32, marks: set<Tid>)
    requires Agree(r) && surplus >= 1 && ShutdownChoice(r, p, surplus, marks)
    ensures var r' := Mark(Touch(r, p), marks);
            && |Unmarked(r', p)| == |Unmarked(r, p)| - Min(surplus, |Unmarked(r, p)|)
            && forall q :: Members(r', q) == Members(r, q) && (q != p ==> Unmarked(r', q) == Unmarked(r, q))
  {
    AgreeTouch(r, p);
    assert forall q :: Unmarked(Touch(r, p), q) == Unmarked(r, q);
    AgreeMark(Touch(r, p), marks);
    ShutdownEffect(Touch(r, p), p, surplus, marks);
  }

  /**
   Stopping the surplus of a pool leaves the asked number unmarked exactly when all the threads
   that main counted are still there and none of them was draining. Draining threads are counted
   as surplus yet cannot be marked again, and threads that have left since the count cannot be
   marked either, so others are marked in their place.
   */
  lemma StopLeavesEnough(s: Sys, marks: set<Tid>)
    requires Inv(s) && Enabled(s, SendStop(marks))
    ensures var d, k := Current(s.main), s.main.inform.count;
            var left := |Unmarked(Apply(s, SendStop(marks)).reg, d.pool)|;
            && left <= d.count
            && (left == d.count <==> d.count == 0 || |Unmarked(s.reg, d.pool)| == k + d.count)
            && (left == 0 <==> |Unmarked(s.reg, d.pool)| <= k)
  {
    StopSucceeds(s, marks);
    var p := Current(s.main).pool;
    StopMarks(s.reg, p, s.main.inform.count, marks);
    SubsetCardinality(Unmarked(s.reg, p), Members(s.reg, p));
  }

  // ----- never above the configuration

  /** Every pool that main is done with has at most its worker count of unmarked threads. */
  ghost predicate Capped(s: Sys) {
    s.main.phase in {AtTop, Passing} ==>
      forall p :: p in s.main.goal.pools && p !in Pools(s.main.news) ==>
        |Unmarked(s.reg, p)| <= s.main.goal.pools[p].workerCount
  }

  lemma UnmarkedShrinks(r: RegistryState, r': RegistryState, t: Tid, w: Worker, p: string)
    requires Agree(r) && RegistryMoves(r, r', t, w) && !(w.pc.Built? && w.pool == p)
    ensures Unmarked(r', p) <= Unmarked(r, p)
  {
    forall u | u in Unmarked(r', p)
      ensures u in Unmarked(r, p)
    {
      MembersAgree(r', p, u);
      MembersAgree(r, p, u);
    }
  }

  lemma CappedMoves(s: Sys, t: Tid, s': Sys)
    requires Base(s) && Capped(s) && Moves(s, t, s')
    ensures Capped(s')
  {
    forall p | p in s.main.goal.pools && p !in Pools(s.main.news) && s.main.phase in {AtTop, Passing}
      ensures |Unmarked(s'.reg, p)| <= s.main.goal.pools[p].workerCount
    {
      if s.workers[t].pc.Built? {
        assert s.main.news[0] in s.main.news;
      }
      UnmarkedShrinks(s.reg, s'.reg, t, s.workers[t], p);
      SubsetCardinality(Unmarked(s'.reg, p), Unmarked(s.reg, p));
    }
  }

  /** Done with a directive of the new configuration. */
  lemma CappedAdvance(s: Sys, s': Sys)
    requires Structured(s) && Capped(s) && s.main.clears == [] && s.main.news != []
    requires s'.main == s.main.(news := s.main.news[1..], inform := ReadCount)
    requires forall p :: p != s.main.news[0].pool ==> Unmarked(s'.reg, p) == Unmarked(s.reg, p)
    requires |Unmarked(s'.reg, s.main.news[0].pool)| <= s.main.news[0].count
    ensures Capped(s')
  {
    PoolsRest(s.main.news);
    assert s.main.news[0] in s.main.news;
  }

  lemma CappedStop(s: Sys, marks: set<Tid>)
    requires Inv(s) && Capped(s) && Enabled(s, SendStop(marks))
    ensures Capped(Apply(s, SendStop(marks)))
  {
    var s' := Apply(s, SendStop(marks));
    StopSucceeds(s, marks);
    StopLeavesEnough(s, marks);
    StopMarks(s.reg, Current(s.main).pool, s.main.inform.count, marks);
    CappedStopped(s, s');
  }

  lemma CappedStopped(s: Sys, s': Sys)
    requires Structured(s) && Capped(s) && Informing(s.main) && s'.main == Advance(s.main)
    requires forall p :: p != Current(s.main).pool ==> Unmarked(s'.reg, p) == Unmarked(s.reg, p)
    requires |Unmarked(s'.reg, Current(s.main).pool)| <= |Unmarked(s.reg, Current(s.main).pool)|
    requires |Unmarked(s'.reg, Current(s.main).pool)| <= Current(s.main).count
    ensures Capped(s')
  {
    if s.main.clears == [] {
      CappedAdvance(s, s');
    } else {
      CappedClears(s, s');
    }
  }

  lemma CappedClears(s: Sys, s': Sys)
    requires Capped(s) && s.main.clears != []
    requires s'.main == s.main.(clears := s'.main.clears, inform := s'.main.inform)
    requires forall q :: |Unmarked(s'.reg, q)| <= |Unmarked(s.reg, q)|
    ensures Capped(s')
  {
  }

  lemma UnmarkedTouch(r: RegistryState, pool: string)
    ensures forall p :: Unmarked(Touch(r, pool), p) == Unmarked(r, p)
  {
    forall p
      ensures Unmarked(Touch(r, pool), p) == Unmarked(r, p)
    {
      assert Members(Touch(r, pool), p) == Members(r, p);
    }
  }

  lemma CappedGo(s: Sys)
    requires Inv(s) && Capped(s) && InformEnabled(s)
    ensures Capped(InformStep(s))
  {
    var d := Current(s.main);
    UnmarkedTouch(s.reg, d.pool);
    CountExact(s, d.pool);
    SubsetCardinality(Unmarked(s.reg, d.pool), Members(s.reg, d.pool));
    if InformStep(s).main == Advance(s.main) && s.main.clears == [] {
      CappedAdvance(s, InformStep(s));
    }
  }

  lemma CappedMain(s: Sys, a: Action)
    requires Inv(s) && Capped(s) && Enabled(s, a) && !a.Act?
    ensures Capped(Apply(s, a))
  {
    match a
    case SendStop(marks) => CappedStop(s, marks);
    case Go => CappedGo(s);
    case _ =>
  }

  lemma CappedStep(states: seq<Sys>, actions: seq<Action>, i: nat)
    requires Behaviour(states, actions) && i < |actions| && Capped(states[i])
    ensures Capped(states[i + 1])
  {
    InvRun(states, actions, i);
    assert StepAt(states, actions, i);
    if actions[i].Act? {
      WorkerEffect(states[i], actions[i].actor, actions[i].move);
      if !states[i].workers[actions[i].actor].pc.Ended? {
        CappedMoves(states[i], actions[i].actor, states[i + 1]);
      }
    } else {
      CappedMain(states[i], actions[i]);
    }
  }

  /** In every run, a pool that main is done with never has more unmarked threads than it should. */
  lemma {:induction false} CappedRun(states: seq<Sys>, actions: seq<Action>, i: nat)
    requires Behaviour(states, actions) && i < |states|
    ensures Capped(states[i])
  {
    if i > 0 {
      CappedRun(states, actions, i - 1);
      CappedStep(states, actions, i - 1);
    }
  }

  /** No thread of a pool that the configuration does not name is unmarked between passes. */
  lemma StrangersMarked(states: seq<Sys>, actions: seq<Action>, i: nat, pool: string)
    requires Behaviour(states, actions) && i < |states|
    requires states[i].main.phase == AtTop && pool !in states[i].main.config.pools
    ensures Unmarked(states[i].reg, pool) == {}
  {
    InvRun(states, actions, i);
    PoolsEmpty(states[i].main.clears);
    forall t | t in Unmarked(states[i].reg, pool)
      ensures false
    {
      MembersAgree(states[i].reg, pool, t);
    }
  }

  /** How many workers the configuration wants in a pool. */
  function Wanted(c: Config, pool: string): nat {
    if pool in c.pools then c.pools[pool].workerCount else 0
  }

  /** So between passes no pool whatever has more unmarked threads than the configuration wants. */
  lemma NeverAbove(states: seq<Sys>, actions: seq<Action>, i: nat, pool: string)
    requires Behaviour(states, actions) && i < |states| && states[i].main.phase == AtTop
    ensures |Unmarked(states[i].reg, pool)| <= Wanted(states[i].main.config, pool)
  {
    if pool in states[i].main.config.pools {
      CappedRun(states, actions, i);
      InvRun(states, actions, i);
      PoolsEmpty(states[i].main.news);
    } else {
      StrangersMarked(states, actions, i, pool);
    }
  }

  // ----- one pass

  /**
   What a pass finds in a pool: its size, and how many of its threads are unmarked once the
   outdated pools are cleared.
   */
  datatype Found = Found(size: nat, kept: nat)

  ghost function FoundIn(s: Sys, next: Config, pool: string): Found {
    Found(Size(s, pool), if pool in Outdated(s.main.config, next) then 0 else |Unmarked(s.reg, pool)|)
  }

  /** The unmarked threads of a pool after a pass that none of its threads leaves. */
  function Outcome(f: Found, count: nat): int {
    if f.size <= count then f.kept + count - f.size
    else if f.kept > f.size - count then f.kept - (f.size - count)
    else 0
  }

  /** The pool being informed, by where `inform` stands. */
  ghost predicate Midway(s: Sys, pool: string, f: Found, count: nat) {
    var size, i := Size(s, pool), s.main.inform;
    && |Unmarked(s.reg, pool)| == size - (f.size - f.kept)
    && match i
       case ReadCount => size == f.size
       case Stopping(k) => size == f.size == count + k
       case TakeLock(left) => f.size <= count == size + left
       case ResetWakeup(left) => f.size <= count == size + left
       case Spawning(left) => f.size <= count == size + left
       case Detach(left) => f.size <= count == size + left - 1
       case DropLock(left) => f.size <= count == size + left - 1
       case _ => f.size <= count == size + i.left - if UnderConstruction(s) then 0 else 1
  }

  /** A pool of the new configuration in the middle of a pass that none of its threads leaves. */
  ghost predicate Heading(s: Sys, pool: string, f: Found)
    requires pool in s.main.goal.pools
  {
    var count := s.main.goal.pools[pool].workerCount;
    if pool in Pools(s.main.clears) then Size(s, pool) == f.size && f.kept == 0
    else if pool !in Pools(s.main.news) then |Unmarked(s.reg, pool)| == Outcome(f, count)
    else if Current(s.main).pool == pool then Midway(s, pool, f, count)
    else Size(s, pool) == f.size && |Unmarked(s.reg, pool)| == f.kept
  }

  ghost predicate Converging(s: Sys, pool: string, f: Found) {
    && s.main.phase == Passing && pool in s.main.goal.pools && f.kept <= f.size
    && Distinct(s.main.clears) && (s.main.clears != [] ==> pool in Pools(s.main.news))
    && Heading(s, pool, f)
  }

  /** A thread of the pool unregisters. */
  ghost predicate LeavesPool(s: Sys, a: Action, pool: string) {
    a.Act? && a.actor in s.workers && s.workers[a.actor].pc.Exiting? && s.workers[a.actor].pool == pool
  }

  lemma UnmarkedMoves(r: RegistryState, r': RegistryState, t: Tid, w: Worker, p: string)
    requires Agree(r) && RegistryMoves(r, r', t, w) && (w.pc.Built? ==> t !in r.threads)
    requires t in r.threads ==> r.threads[t].pool == w.pool
    requires !(w.pc.Exiting? && w.pool == p)
    ensures Unmarked(r', p) == if w.pc.Built? && p == w.pool then Unmarked(r, p) + {t} else Unmarked(r, p)
    ensures w.pc.Built? ==> t !in Members(r, w.pool)
  {
    MembersAgree(r, w.pool, t);
    forall u
      ensures u in Unmarked(r', p) <==> u in Unmarked(r, p) || (w.pc.Built? && p == w.pool && u == t)
    {
      MembersAgree(r, p, u);
      MembersAgree(r', p, u);
    }
  }

  /** The pool as a worker's step leaves it: unchanged, or with the awaited thread registered. */
  ghost predicate Joined(s: Sys, s': Sys, p: string) {
    if UnderConstruction(s) && !UnderConstruction(s') && Informing(s.main) && Current(s.main).pool == p then
      Size(s', p) == Size(s, p) + 1 && |Unmarked(s'.reg, p)| == |Unmarked(s.reg, p)| + 1
    else
      && Size(s', p) == Size(s, p) && |Unmarked(s'.reg, p)| == |Unmarked(s.reg, p)|
      && (Informing(s.main) && Current(s.main).pool == p ==> (UnderConstruction(s') <==> UnderConstruction(s)))
  }

  lemma MovesJoin(s: Sys, t: Tid, s': Sys, p: string)
    requires Base(s) && Moves(s, t, s') && !(s.workers[t].pc.Exiting? && s.workers[t].pool == p)
    ensures Joined(s, s', p)
  {
    ConstructionEnds(s, t, s');
    JoinedBy(s, t, s', p);
  }

  lemma JoinedBy(s: Sys, t: Tid, s': Sys, p: string)
    requires Owned(s) && Moves(s, t, s') && !(s.workers[t].pc.Exiting? && s.workers[t].pool == p)
    requires if s.workers[t].pc.Built? then
               && Informing(s.main) && s.workers[t].pool == Current(s.main).pool
               && UnderConstruction(s) && !UnderConstruction(s')
             else UnderConstruction(s') <==> UnderConstruction(s)
    ensures Joined(s, s', p)
  {
    UnmarkedMoves(s.reg, s'.reg, t, s.workers[t], p);
  }

  lemma HeadingMoves(s: Sys, s': Sys, pool: string, f: Found)
    requires s'.main == s.main || s'.main == s.main.(inform := Notified(s.main.inform))
    requires Joined(s, s', pool) && Structured(s) && Converging(s, pool, f)
    ensures Converging(s', pool, f)
  {
    if UnderConstruction(s) && s.main.news != [] {
      assert s.main.news[0] in s.main.news;
    }
  }

  lemma RestDistinct(ds: seq<Directive>)
    requires ds != [] && Distinct(ds)
    ensures ds[0].pool !in Pools(ds[1..])
  {
    forall d | d in ds[1..]
      ensures d.pool != ds[0].pool
    {
      var i :| 0 <= i < |ds[1..]| && ds[1..][i] == d;
      assert ds[i + 1].pool != ds[0].pool;
    }
  }

  /** A directive for another pool is done with: this one may be the next. */
  lemma HeadingPast(s: Sys, s': Sys, pool: string, f: Found)
    requires Structured(s) && Converging(s, pool, f) && Informing(s.main) && Current(s.main).pool != pool
    requires s'.main == Advance(s.main)
    requires Size(s', pool) == Size(s, pool) && |Unmarked(s'.reg, pool)| == |Unmarked(s.reg, pool)|
    ensures Converging(s', pool, f)
  {
    if s.main.clears != [] {
      PoolsRest(s.main.clears);
    } else {
      PoolsRest(s.main.news);
    }
  }

  /** The pool has been cleared, and nothing else happens to it before its announcement. */
  lemma HeadingCleared(s: Sys, s': Sys, f: Found)
    requires Structured(s) && s.main.clears != []
    requires var pool := s.main.clears[0].pool;
             && Converging(s, pool, f) && s'.main == Advance(s.main)
             && Size(s', pool) == Size(s, pool) && Unmarked(s'.reg, pool) == {}
    ensures Converging(s', s.main.clears[0].pool, f)
  {
    PoolsRest(s.main.clears);
    RestDistinct(s.main.clears);
  }

  /** The pool has been announced and brought to its outcome. */
  lemma HeadingDone(s: Sys, s': Sys, f: Found)
    requires Structured(s) && s.main.clears == [] && s.main.news != []
    requires var pool := s.main.news[0].pool;
             && Converging(s, pool, f) && s'.main == Advance(s.main)
             && |Unmarked(s'.reg, pool)| == Outcome(f, s.main.news[0].count)
    ensures Converging(s', s.main.news[0].pool, f)
  {
    PoolsRest(s.main.news);
    RestDistinct(s.main.news);
    PoolsEmpty(s.main.clears);
    assert s.main.news[0] in s.main.news;
  }

  lemma ConvergingStop(s: Sys, marks: set<Tid>, pool: string, f: Found)
    requires Base(s) && Counting(s) && Converging(s, pool, f) && Enabled(s, SendStop(marks))
    ensures Converging(Apply(s, SendStop(marks)), pool, f)
  {
    var p := Current(s.main).pool;
    StopSucceeds(s, marks);
    StopMarks(s.reg, p, s.main.inform.count, marks);
    if s.main.clears != [] {
      ClearMarksAll(s, marks);
    }
    ConvergingStopped(s, Apply(s, SendStop(marks)), pool, f);
  }

  lemma ConvergingStopped(s: Sys, s': Sys, pool: string, f: Found)
    requires Structured(s) && Converging(s, pool, f) && Informing(s.main) && s.main.inform.Stopping?
    requires s'.main == Advance(s.main) && Size(s', pool) == Size(s, pool)
    requires var p := Current(s.main).pool;
             && (p != pool ==> |Unmarked(s'.reg, pool)| == |Unmarked(s.reg, pool)|)
             && (s.main.clears != [] ==> |Unmarked(s'.reg, p)| == 0)
             && |Unmarked(s'.reg, p)| == |Unmarked(s.reg, p)| - Min(s.main.inform.count, |Unmarked(s.reg, p)|)
    ensures Converging(s', pool, f)
  {
    if Current(s.main).pool != pool {
      HeadingPast(s, s', pool, f);
    } else if s.main.clears != [] {
      HeadingCleared(s, s', f);
    } else {
      assert s.main.news[0] in s.main.news;
      HeadingDone(s, s', f);
    }
  }

  /** Counting a pool decides what is left to do for it, and nothing for the others. */
  lemma ConvergingReads(s: Sys, pool: string, f: Found)
    requires Base(s) && Bounded(s) && Converging(s, pool, f) && InformEnabled(s) && s.main.inform.ReadCount?
    ensures Converging(InformStep(s), pool, f)
  {
    var s', p := InformStep(s), Current(s.main).pool;
    CountExact(s, p);
    AgreeTouch(s.reg, p);
    UnmarkedTouch(s.reg, p);
    SubsetCardinality(Unmarked(s.reg, p), Members(s.reg, p));
    if s'.main == Advance(s.main) {
      if p != pool {
        HeadingPast(s, s', pool, f);
      } else if s.main.clears != [] {
        HeadingCleared(s, s', f);
      } else {
        assert s.main.news[0] in s.main.news;
        HeadingDone(s, s', f);
      }
    } else if s.main.clears == [] {
      assert s.main.news[0] in s.main.news;
    }
  }

  lemma ConvergingGoes(s: Sys, pool: string, f: Found)
    requires Base(s) && Converging(s, pool, f) && InformEnabled(s) && !s.main.inform.ReadCount?
    ensures Converging(InformStep(s), pool, f)
  {
    assert s.main.news[0] in s.main.news;
    if s.main.inform != TakeLock(0) {
      ConvergingStarts(s, pool, f);
    } else if Current(s.main).pool != pool {
      HeadingPast(s, InformStep(s), pool, f);
    } else {
      HeadingDone(s, InformStep(s), f);
    }
  }

  /** The start loop takes its pool along and leaves the others alone. */
  lemma ConvergingStarts(s: Sys, pool: string, f: Found)
    requires Base(s) && Converging(s, pool, f) && InformEnabled(s)
    requires !s.main.inform.ReadCount? && s.main.inform != TakeLock(0)
    ensures Converging(InformStep(s), pool, f)
  {
    assert Size(InformStep(s), pool) == Size(s, pool);
  }

  lemma ConvergingWait(s: Sys, a: Action, pool: string, f: Found)
    requires Base(s) && Converging(s, pool, f) && Enabled(s, a) && (a.Spawn? || a.WakeSpuriously?)
    ensures Converging(Apply(s, a), pool, f)
  {
    var s' := Apply(s, a);
    assert Size(s', pool) == Size(s, pool);
  }

  lemma ConvergingMain(s: Sys, a: Action, pool: string, f: Found)
    requires Base(s) && Bounded(s) && Counting(s) && Converging(s, pool, f) && Enabled(s, a) && !a.Act?
    requires Apply(s, a).main.phase == Passing
    ensures Converging(Apply(s, a), pool, f)
  {
    match a
    case SendStop(marks) => ConvergingStop(s, marks, pool, f);
    case Go =>
      if s.main.inform.ReadCount? {
        ConvergingReads(s, pool, f);
      } else {
        ConvergingGoes(s, pool, f);
      }
    case _ => ConvergingWait(s, a, pool, f);
  }

  lemma ConvergingLeaves(s: Sys, t: Tid, s': Sys, pool: string, f: Found)
    requires Base(s) && Converging(s, pool, f) && Leaves(s, t, s')
    ensures Converging(s', pool, f)
  {
    assert Size(s', pool) == Size(s, pool);
    assert UnderConstruction(s') <==> UnderConstruction(s);
  }

  lemma ConvergingStep(states: seq<Sys>, actions: seq<Action>, i: nat, pool: string, f: Found)
    requires Behaviour(states, actions) && i < |actions| && Converging(states[i], pool, f)
    requires !LeavesPool(states[i], actions[i], pool) && states[i + 1].main.phase == Passing
    ensures Converging(states[i + 1], pool, f)
  {
    InvRun(states, actions, i);
    assert StepAt(states, actions, i);
    var s, a := states[i], actions[i];
    if !a.Act? {
      ConvergingMain(s, a, pool, f);
    } else {
      WorkerEffect(s, a.actor, a.move);
      if s.workers[a.actor].pc.Ended? {
        ConvergingLeaves(s, a.actor, states[i + 1], pool, f);
      } else {
        MovesJoin(s, a.actor, states[i + 1], pool);
        HeadingMoves(s, states[i + 1], pool, f);
      }
    }
  }

  /** The steps from `i` to `j` are one pass, and no thread of the pool leaves during it. */
  ghost predicate OnePass(states: seq<Sys>, actions: seq<Action>, i: nat, j: nat, pool: string)
    requires |states| == |actions| + 1 && i < j < |states|
  {
    && states[i].main.phase == AtTop && actions[i].BeginPass?
    && (forall k :: i < k < j ==> states[k].main.phase == Passing)
    && (forall k :: i <= k < j ==> !LeavesPool(states[k], actions[k], pool))
  }

  lemma PassBegins(states: seq<Sys>, actions: seq<Action>, i: nat, pool: string)
    requires Behaviour(states, actions) && i < |actions| && states[i].main.phase == AtTop
    requires actions[i].BeginPass? && pool in actions[i].next.pools
    ensures states[i + 1].main.goal == actions[i].next
    ensures Converging(states[i + 1], pool, FoundIn(states[i], actions[i].next, pool))
  {
    InvRun(states, actions, i);
    assert StepAt(states, actions, i);
    SubsetCardinality(Unmarked(states[i].reg, pool), Members(states[i].reg, pool));
  }

  lemma {:induction false} PassConverges(states: seq<Sys>, actions: seq<Action>, i: nat, j: nat, pool: string)
    requires Behaviour(states, actions) && i < j < |states| && OnePass(states, actions, i, j, pool)
    requires states[j].main.phase == Passing && pool in actions[i].next.pools
    ensures states[j].main.goal == actions[i].next
    ensures Converging(states[j], pool, FoundIn(states[i], actions[i].next, pool))
    decreases j
  {
    if j == i + 1 {
      PassBegins(states, actions, i, pool);
    } else {
      PassConverges(states, actions, i, j - 1, pool);
      ConvergingStep(states, actions, j - 1, pool, FoundIn(states[i], actions[i].next, pool));
      GoalStays(states, actions, j - 1);
    }
  }

  lemma GoalStays(states: seq<Sys>, actions: seq<Action>, i: nat)
    requires Behaviour(states, actions) && i < |actions| && states[i].main.phase == Passing
    ensures states[i + 1].main.goal == states[i].main.goal
    ensures states[i + 1].main.phase == AtTop ==>
              && states[i + 1].main.config == states[i].main.goal && states[i + 1].reg == states[i].reg
              && !Informing(states[i].main)
  {
    InvRun(states, actions, i);
    assert StepAt(states, actions, i);
    if actions[i].Act? {
      WorkerEffect(states[i], actions[i].actor, actions[i].move);
    }
  }

  lemma {:induction false} PassGoal(states: seq<Sys>, actions: seq<Action>, i: nat, j: nat, pool: string)
    requires Behaviour(states, actions) && i < j < |states| && OnePass(states, actions, i, j, pool)
    ensures states[j].main.goal == actions[i].next
    decreases j
  {
    if j == i + 1 {
      assert StepAt(states, actions, i);
    } else {
      PassGoal(states, actions, i, j - 1, pool);
      GoalStays(states, actions, j - 1);
    }
  }

  /**
   A pass, whatever it loads and whatever it finds, brings a pool that none of its threads leaves
   meanwhile to exactly this many unmarked threads.
   */
  lemma PassOutcome(states: seq<Sys>, actions: seq<Action>, i: nat, j: nat, pool: string)
    requires Behaviour(states, actions) && i + 1 < j < |states| && OnePass(states, actions, i, j, pool)
    requires states[j].main.phase == AtTop
    ensures states[j].main.config == actions[i].next
    ensures |Unmarked(states[j].reg, pool)| ==
            if pool !in actions[i].next.pools then 0
            else Outcome(FoundIn(states[i], actions[i].next, pool), actions[i].next.pools[pool].workerCount)
  {
    PassGoal(states, actions, i, j - 1, pool);
    GoalStays(states, actions, j - 1);
    if pool in actions[i].next.pools {
      PassConverges(states, actions, i, j - 1, pool);
      PoolsEmpty(states[j - 1].main.news);
      PoolsEmpty(states[j - 1].main.clears);
    } else {
      StrangersMarked(states, actions, j, pool);
    }
  }

  /**
   So one such pass leaves the configured number of unmarked threads exactly when the pool was
   to be or was already empty, or it is not restarted and nobody in it was draining.
   */
  lemma ConvergesInOnePass(states: seq<Sys>, actions: seq<Action>, i: nat, j: nat, pool: string)
    requires Behaviour(states, actions) && i + 1 < j < |states| && OnePass(states, actions, i, j, pool)
    requires states[j].main.phase == AtTop
    ensures |Unmarked(states[j].reg, pool)| == Wanted(states[j].main.config, pool) <==>
            || Wanted(actions[i].next, pool) == 0
            || Members(states[i].reg, pool) == {}
            || (pool !in Outdated(states[i].main.config, actions[i].next)
                && Unmarked(states[i].reg, pool) == Members(states[i].reg, pool))
  {
    PassOutcome(states, actions, i, j, pool);
    SubsetCardinality(Unmarked(states[i].reg, pool), Members(states[i].reg, pool));
  }

  /**
   A pool restarted for a change of its servers, jobs or URI gets a replacement only for what it
   lacks in threads, draining ones included: with as many threads as wanted it gets none, and
   the pass ends with no thread in it that will go on.
   */
  lemma RestartRunsDry(states: seq<Sys>, actions: seq<Action>, i: nat, j: nat, pool: string)
    requires Behaviour(states, actions) && i + 1 < j < |states| && OnePass(states, actions, i, j, pool)
    requires states[j].main.phase == AtTop && pool in Outdated(states[i].main.config, actions[i].next)
    ensures Unmarked(states[j].reg, pool) == {} <==> Wanted(actions[i].next, pool) <= Size(states[i], pool)
  {
    PassOutcome(states, actions, i, j, pool);
  }
}
