/**
 The thread gauges, over every interleaving and in every state, also in the middle of a report:
 each reads the sum of what the live threads contribute, plus what threads that ended in the
 middle of a job left behind.
 */
module GaugeLaw {
  import opened Registry
  import opened Metrics
  import opened Client
  import opened Protocol
  import opened Handshake
  import opened Reconcile
  import opened Sums

  /** What can be read: a pool's idle threads, its threads at a function, and all of the pool. */
  datatype Gauge = IdleGauge(pool: string) | WorkingGauge(pool: string, fn: string) | PoolGauge(pool: string)

  // ----- sums of the working gauges of a pool

  ghost function PoolSum(m: map<(string, string), int>, pool: string): int
    decreases |m|
  {
    if m == map[] then 0
    else
      var k :| k in m;
      (if k.0 == pool then m[k] else 0) + PoolSum(m - {k}, pool)
  }

  lemma {:induction false} PoolSumRemove(m: map<(string, string), int>, pool: string, k: (string, string))
    requires k in m
    ensures PoolSum(m, pool) == (if k.0 == pool then m[k] else 0) + PoolSum(m - {k}, pool)
    decreases |m|
  {
    var j :| j in m && PoolSum(m, pool) == (if j.0 == pool then m[j] else 0) + PoolSum(m - {j}, pool);
    if j != k {
      PoolSumRemove(m - {j}, pool, k);
      PoolSumRemove(m - {k}, pool, j);
      assert m - {j} - {k} == m - {k} - {j};
    }
  }

  lemma PoolSumUpdate(m: map<(string, string), int>, pool: string, k: (string, string), v: int)
    ensures PoolSum(m[k := v], pool) == PoolSum(m, pool) + if k.0 == pool then v - Get(m, k) else 0
  {
    PoolSumRemove(m[k := v], pool, k);
    assert m[k := v] - {k} == m - {k};
    if k in m {
      PoolSumRemove(m, pool, k);
    } else {
      assert m - {k} == m;
    }
  }

  ghost function Reading(gs: Gauges, g: Gauge): int {
    match g
    case IdleGauge(p) => Idle(gs, p)
    case WorkingGauge(p, fn) => Working(gs, p, fn)
    case PoolGauge(p) => Idle(gs, p) + PoolSum(gs.working, p)
  }

  // ----- what one thread contributes

  /** The functions for which a thread is counted as working. */
  function Busy(w: Worker): seq<string> {
    match w.pc
    case JobActive(fn) => [fn] + w.active
    case JobIdled(fn) => [fn] + w.active
    case FinishActive | FinishIdled | LeaveActive | LeaveIdled => if w.active == [] then [] else w.active[1..]
    case _ => w.active
  }

  /** A thread counts once as idle, less the jobs that it is at. */
  function Idleness(w: Worker): int {
    match w.pc
    case Spawned | Building => 0
    case Ended(clean) => if clean then 0 else 1 - |w.active|
    case JobIdled(_) => -|w.active|
    case FinishIdled | LeaveIdled => 2 - |w.active|
    case _ => 1 - |w.active|
  }

  ghost function Share(w: Worker, g: Gauge): int {
    if w.pool != g.pool then 0 else
      match g
      case IdleGauge(_) => Idleness(w)
      case WorkingGauge(_, fn) => multiset(Busy(w))[fn]
      case PoolGauge(_) => Idleness(w) + |Busy(w)|
  }

  ghost predicate WellKept(w: Worker) {
    && (w.pc.Spawned? || w.pc.Building? || w.pc == Ended(true) ==> w.active == [])
    && (w.pc.FinishActive? || w.pc.FinishIdled? || w.pc.LeaveActive? || w.pc.LeaveIdled? ==> w.active != [])
  }

  lemma ReadAddIdle(gs: Gauges, pool: string, n: int, g: Gauge)
    ensures Reading(AddIdle(gs, pool, n), g) ==
            Reading(gs, g) + if g.pool == pool && !g.WorkingGauge? then n else 0
  {
  }

  lemma ReadAddWorking(gs: Gauges, pool: string, fn: string, n: int, g: Gauge)
    ensures Reading(AddWorking(gs, pool, fn, n), g) ==
            Reading(gs, g) + if g == WorkingGauge(pool, fn) || g == PoolGauge(pool) then n else 0
  {
    PoolSumUpdate(gs.working, g.pool, (pool, fn), Working(gs, pool, fn) + n);
  }

  /** The step by which a thread counts itself as working, or no longer. */
  predicate Switches(w: Worker) {
    w.pc.JobNoted? || ((w.pc.Finish? || w.pc.Leaving?) && w.active != [])
  }

  /** What the thread reports as idle in its next step. */
  function IdleReport(w: Worker): int {
    match w.pc
    case Building | FinishActive | LeaveActive => 1
    case JobActive(_) => -1
    case Leaving => if w.active == [] then -1 else 0
    case _ => 0
  }

  lemma IdleStep(w: Worker, move: Move, force: bool, marked: bool)
    requires WellKept(w) && MoveEnabled(w, move) && !w.pc.Ended?
    ensures var w' := NextWorker(w, move, force, marked);
            WellKept(w') && w'.pool == w.pool && Idleness(w') == Idleness(w) + IdleReport(w)
  {
  }

  lemma BusyStep(w: Worker, move: Move, force: bool, marked: bool)
    requires WellKept(w) && MoveEnabled(w, move) && !w.pc.Ended?
    ensures var w' := NextWorker(w, move, force, marked);
            if w.pc.JobNoted? then Busy(w') == [w.pc.fn] + Busy(w)
            else if Switches(w) then Busy(w) == w.active && Busy(w') == w.active[1..]
            else Busy(w') == Busy(w)
  {
  }

  lemma GaugesStep(gs: Gauges, w: Worker, g: Gauge)
    requires WellKept(w)
    ensures Reading(NextGauges(gs, w), g) == Reading(gs, g) +
            if g.pool != w.pool then 0
            else if Switches(w) then
              var fn := if w.pc.JobNoted? then w.pc.fn else w.active[0];
              var n := if w.pc.JobNoted? then 1 else -1;
              (if g.PoolGauge? || g == WorkingGauge(w.pool, fn) then n else 0)
            else if g.WorkingGauge? then 0
            else IdleReport(w)
  {
    if w.pc.JobNoted? {
      ReadAddWorking(gs, w.pool, w.pc.fn, 1, g);
    } else if Switches(w) {
      ReadAddWorking(gs, w.pool, w.active[0], -1, g);
    } else {
      ReadAddIdle(gs, w.pool, IdleReport(w), g);
    }
  }

  /** A step changes each gauge by as much as it changes the thread's share of it. */
  lemma ShareStep(w: Worker, move: Move, force: bool, marked: bool, gs: Gauges, g: Gauge)
    requires WellKept(w) && MoveEnabled(w, move) && !w.pc.Ended?
    ensures var w' := NextWorker(w, move, force, marked);
            && WellKept(w')
            && Reading(NextGauges(gs, w), g) - Reading(gs, g) == Share(w', g) - Share(w, g)
  {
    IdleStep(w, move, force, marked);
    BusyStep(w, move, force, marked);
    GaugesStep(gs, w, g);
    SharesDiffer(w, NextWorker(w, move, force, marked), g);
  }

  /** The share of a gauge follows from idleness and the busy list. */
  lemma SharesDiffer(w: Worker, w': Worker, g: Gauge)
    requires w'.pool == w.pool
    ensures g.pool != w.pool ==> Share(w', g) == Share(w, g)
    ensures g == IdleGauge(w.pool) ==> Share(w', g) - Share(w, g) == Idleness(w') - Idleness(w)
    ensures g == PoolGauge(w.pool) ==>
              Share(w', g) - Share(w, g) == Idleness(w') - Idleness(w) + |Busy(w')| - |Busy(w)|
    ensures forall fn :: Busy(w') == [fn] + Busy(w) && g.WorkingGauge? && g.pool == w.pool ==>
                           Share(w', g) - Share(w, g) == if g.fn == fn then 1 else 0
    ensures Busy(w) != [] && Busy(w') == Busy(w)[1..] && g.WorkingGauge? && g.pool == w.pool ==>
              Share(w', g) - Share(w, g) == if g.fn == Busy(w)[0] then -1 else 0
  {
    if Busy(w) != [] {
      assert Busy(w) == [Busy(w)[0]] + Busy(w)[1..];
    }
  }

  ghost function ShareOf(g: Gauge): Worker -> int {
    (w: Worker) => Share(w, g)
  }

  ghost function Residue(phantoms: seq<Worker>, g: Gauge): int {
    if phantoms == [] then 0 else Residue(phantoms[..|phantoms| - 1], g) + Share(phantoms[|phantoms| - 1], g)
  }

  // ----- the law

  ghost predicate Kept(s: Sys) {
    forall t :: t in s.workers ==> WellKept(s.workers[t])
  }

  ghost predicate Law(s: Sys, g: Gauge) {
    Reading(s.gauges, g) == Total(s.workers, ShareOf(g)) + Residue(s.hist.phantoms, g)
  }

  lemma LawLeaves(s: Sys, t: Tid, g: Gauge)
    requires Law(s, g) && Kept(s) && t in s.workers && s.workers[t].pc.Ended?
    ensures var ps := s.hist.phantoms + if s.workers[t].pc.clean then [] else [s.workers[t]];
            Reading(s.gauges, g) == Total(s.workers - {t}, ShareOf(g)) + Residue(ps, g)
  {
    var w := s.workers[t];
    TotalRemove(s.workers, ShareOf(g), t);
    if w.pc.clean {
      assert s.hist.phantoms + [] == s.hist.phantoms;
    } else {
      var ps := s.hist.phantoms + [w];
      assert ps[..|ps| - 1] == s.hist.phantoms;
    }
  }

  lemma LawMoves(s: Sys, t: Tid, s': Sys, g: Gauge)
    requires Law(s, g) && t in s.workers && t in s'.workers && s'.workers == s.workers[t := s'.workers[t]]
    requires s'.hist.phantoms == s.hist.phantoms
    requires Reading(s'.gauges, g) - Reading(s.gauges, g) == Share(s'.workers[t], g) - Share(s.workers[t], g)
    ensures Law(s', g)
  {
    TotalUpdate(s.workers, ShareOf(g), t, s'.workers[t]);
  }

  lemma LawWorker(s: Sys, t: Tid, move: Move, g: Gauge)
    requires Owned(s) && Kept(s) && Law(s, g) && WorkerEnabled(s, t, move)
    ensures Law(WorkerStep(s, t, move), g)
  {
    var w, s' := s.workers[t], WorkerStep(s, t, move);
    WorkerEffect(s, t, move);
    if w.pc.Ended? {
      LawLeaves(s, t, g);
    } else {
      ShareStep(w, move, s.force, Marked(s, t), s.gauges, g);
      LawMoves(s, t, s', g);
    }
  }

  lemma KeptWorker(s: Sys, t: Tid, move: Move)
    requires Owned(s) && Kept(s) && WorkerEnabled(s, t, move)
    ensures Kept(WorkerStep(s, t, move))
  {
    if !s.workers[t].pc.Ended? {
      IdleStep(s.workers[t], move, s.force, Marked(s, t));
    }
    EachWorker(s, t, move, WellKept);
  }

  lemma LawSame(s: Sys, s': Sys, g: Gauge)
    requires Law(s, g) && s'.gauges == s.gauges && s'.workers == s.workers && s'.hist.phantoms == s.hist.phantoms
    ensures Law(s', g)
  {
  }

  lemma LawSpawn(s: Sys, t: Tid, g: Gauge)
    requires Law(s, g) && Enabled(s, Spawn(t))
    ensures Law(Apply(s, Spawn(t)), g)
  {
    TotalUpdate(s.workers, ShareOf(g), t, NewWorker(s));
  }

  lemma LawMain(s: Sys, a: Action, g: Gauge)
    requires Kept(s) && Law(s, g) && Enabled(s, a) && !a.Act?
    ensures Kept(Apply(s, a)) && Law(Apply(s, a), g)
  {
    EachWorkerMain(s, a, WellKept);
    MainSilent(s, a);
    if a.Spawn? {
      LawSpawn(s, a.newcomer, g);
    } else {
      LawSame(s, Apply(s, a), g);
    }
  }

  lemma {:induction false} LawRun(states: seq<Sys>, actions: seq<Action>, i: nat, g: Gauge)
    requires Behaviour(states, actions) && i < |states|
    ensures Kept(states[i]) && Law(states[i], g)
  {
    if i > 0 {
      LawRun(states, actions, i - 1, g);
      InvRun(states, actions, i - 1);
      assert StepAt(states, actions, i - 1);
      var s, a := states[i - 1], actions[i - 1];
      if a.Act? {
        LawWorker(s, a.actor, a.move, g);
        KeptWorker(s, a.actor, a.move);
      } else {
        LawMain(s, a, g);
      }
    }
  }

  // ----- what the law says

  /** The thread is not in the middle of a report. */
  predicate BetweenReports(w: Worker) {
    !(w.pc.JobActive? || w.pc.FinishActive? || w.pc.LeaveActive?)
  }

  /** Whether a thread is counted at all: from its client's construction to a clean end. */
  predicate Counted(w: Worker) {
    !w.pc.Spawned? && !w.pc.Building? && w.pc != Ended(true)
  }

  ghost function CountedIn(ws: map<Tid, Worker>, pool: string): set<Tid> {
    set t | t in ws && ws[t].pool == pool && Counted(ws[t])
  }

  ghost function PhantomsIn(phantoms: seq<Worker>, pool: string): nat {
    if phantoms == [] then 0
    else PhantomsIn(phantoms[..|phantoms| - 1], pool) + if phantoms[|phantoms| - 1].pool == pool then 1 else 0
  }

  lemma CountedShare(w: Worker, pool: string)
    requires w.pool == pool ==> WellKept(w) && BetweenReports(w)
    ensures Share(w, PoolGauge(pool)) == if w.pool == pool && Counted(w) then 1 else 0
  {
  }

  lemma {:induction false} TotalCounts(ws: map<Tid, Worker>, pool: string)
    requires forall t :: t in ws && ws[t].pool == pool ==> WellKept(ws[t]) && BetweenReports(ws[t])
    ensures Total(ws, ShareOf(PoolGauge(pool))) == |CountedIn(ws, pool)|
    decreases |ws|
  {
    if ws == map[] {
      assert CountedIn(ws, pool) == {};
    } else {
      var t :| t in ws;
      TotalRemove(ws, ShareOf(PoolGauge(pool)), t);
      CountedShare(ws[t], pool);
      TotalCounts(ws - {t}, pool);
      if t in CountedIn(ws, pool) {
        assert CountedIn(ws, pool) == CountedIn(ws - {t}, pool) + {t};
      } else {
        assert CountedIn(ws, pool) == CountedIn(ws - {t}, pool);
      }
    }
  }

  /** Phantoms are threads that ended uncleanly. */
  ghost predicate Phantoms(s: Sys) {
    forall i :: 0 <= i < |s.hist.phantoms| ==> s.hist.phantoms[i].pc == Ended(false)
  }

  lemma {:induction false} ResidueCounts(phantoms: seq<Worker>, pool: string)
    requires forall i :: 0 <= i < |phantoms| ==> phantoms[i].pc == Ended(false)
    ensures Residue(phantoms, PoolGauge(pool)) == PhantomsIn(phantoms, pool)
  {
    if phantoms != [] {
      ResidueCounts(phantoms[..|phantoms| - 1], pool);
    }
  }

  lemma {:induction false} PhantomsRun(states: seq<Sys>, actions: seq<Action>, i: nat)
    requires Behaviour(states, actions) && i < |states|
    ensures Phantoms(states[i])
  {
    if i > 0 {
      PhantomsRun(states, actions, i - 1);
      assert StepAt(states, actions, i - 1);
    }
  }

  /**
   Idle and working together count the live threads of the pool and, on top, every thread that
   ever ended there in the middle of a job: nothing takes those out of the gauges again.
   */
  lemma PoolTotal(states: seq<Sys>, actions: seq<Action>, i: nat, pool: string)
    requires Behaviour(states, actions) && i < |states|
    requires forall t :: t in states[i].workers && states[i].workers[t].pool == pool ==>
               BetweenReports(states[i].workers[t])
    ensures Idle(states[i].gauges, pool) + PoolSum(states[i].gauges.working, pool) ==
            |CountedIn(states[i].workers, pool)| + PhantomsIn(states[i].hist.phantoms, pool)
  {
    LawRun(states, actions, i, PoolGauge(pool));
    PhantomsRun(states, actions, i);
    TotalCounts(states[i].workers, pool);
    ResidueCounts(states[i].hist.phantoms, pool);
  }

  /** Once all threads have ended, only those that ended in the middle of a job still show. */
  lemma AllEnded(states: seq<Sys>, actions: seq<Action>, i: nat, g: Gauge)
    requires Behaviour(states, actions) && i < |states| && states[i].workers == map[]
    ensures Reading(states[i].gauges, g) == Residue(states[i].hist.phantoms, g)
  {
    LawRun(states, actions, i, g);
  }

  // ----- a well-behaved library

  /** A work call runs at most one job, and returns a completion code if it ran one. */
  ghost predicate WellBehaved(s: Sys, a: Action) {
    a.Act? && a.actor in s.workers ==>
      && (a.move.StartJob? ==> s.workers[a.actor].ran == [])
      && (a.move.WorkReturns? && s.workers[a.actor].ran != [] ==> Completes(a.move.code))
  }

  /** The stack holds the job of the current work call and nothing else. */
  ghost predicate Tidy(w: Worker) {
    match w.pc
    case InWork => |w.active| == |w.ran| <= 1
    case JobNoted(_) | JobActive(_) | JobIdled(_) => w.active == [] && w.ran == []
    case InJob(_) => |w.active| == 1 && w.ran == []
    case JobFailing(_) => |w.active| == 1 && |w.ran| == 1
    case Finish | FinishActive | FinishIdled => |w.active| <= 1 && w.ran == []
    case LeaveActive | LeaveIdled => false
    case Ended(clean) => clean && w.active == [] && w.ran == []
    case _ => w.active == [] && w.ran == []
  }

  lemma TidyStep(w: Worker, move: Move, force: bool, marked: bool)
    requires Tidy(w) && MoveEnabled(w, move) && !w.pc.Ended?
    requires move.StartJob? ==> w.ran == []
    requires move.WorkReturns? && w.ran != [] ==> Completes(move.code)
    ensures Tidy(NextWorker(w, move, force, marked))
  {
  }

  ghost predicate AllTidy(s: Sys) {
    s.hist.phantoms == [] && forall t :: t in s.workers ==> Tidy(s.workers[t])
  }

  lemma TidyWorker(s: Sys, t: Tid, move: Move)
    requires Owned(s) && AllTidy(s) && WorkerEnabled(s, t, move) && WellBehaved(s, Act(t, move))
    ensures AllTidy(WorkerStep(s, t, move))
  {
    if !s.workers[t].pc.Ended? {
      TidyStep(s.workers[t], move, s.force, Marked(s, t));
    }
    EachWorker(s, t, move, Tidy);
    NoPhantom(s, t, move);
  }

  lemma NoPhantom(s: Sys, t: Tid, move: Move)
    requires Owned(s) && s.hist.phantoms == [] && WorkerEnabled(s, t, move) && s.workers[t].pc != Ended(false)
    ensures WorkerStep(s, t, move).hist.phantoms == []
  {
    if !s.workers[t].pc.Ended? {
      WorkerEffect(s, t, move);
    }
  }

  lemma TidyMain(s: Sys, a: Action)
    requires AllTidy(s) && Enabled(s, a) && !a.Act?
    ensures AllTidy(Apply(s, a))
  {
    EachWorkerMain(s, a, Tidy);
  }

  /** With such a library, no thread ever ends in the middle of a job. */
  lemma {:induction false} TidyRun(states: seq<Sys>, actions: seq<Action>, i: nat)
    requires Behaviour(states, actions) && i < |states|
    requires forall k :: 0 <= k < i ==> WellBehaved(states[k], actions[k])
    ensures AllTidy(states[i])
  {
    if i > 0 {
      TidyRun(states, actions, i - 1);
      InvRun(states, actions, i - 1);
      assert StepAt(states, actions, i - 1);
      if actions[i - 1].Act? {
        TidyWorker(states[i - 1], actions[i - 1].actor, actions[i - 1].move);
      } else {
        TidyMain(states[i - 1], actions[i - 1]);
      }
    }
  }

  /**
   So the stack is never deeper than one, is empty outside work calls, the gauges always equal
   what the live threads contribute, and they are all zero when the last thread has ended.
   */
  lemma GaugesConserved(states: seq<Sys>, actions: seq<Action>, i: nat, g: Gauge)
    requires Behaviour(states, actions) && i < |states|
    requires forall k :: 0 <= k < i ==> WellBehaved(states[k], actions[k])
    ensures forall t :: t in states[i].workers ==>
              && |states[i].workers[t].active| <= 1
              && (states[i].workers[t].pc in {CheckForce, CheckMark, Running, Exiting} ==>
                    states[i].workers[t].active == [])
    ensures Reading(states[i].gauges, g) == Total(states[i].workers, ShareOf(g))
    ensures states[i].workers == map[] ==> Reading(states[i].gauges, g) == 0
  {
    TidyRun(states, actions, i);
    LawRun(states, actions, i, g);
  }
}
