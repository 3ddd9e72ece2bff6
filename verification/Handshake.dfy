/**
 Who owns what: registered threads are live threads between registration and unregistration, and
 at most one thread is ever under construction, the one that main is waiting for.
 */
module Handshake {
  import opened Common
  import opened Registry
  import opened Configs
  import opened Metrics
  import opened Protocol

  // ----- what a worker's step amounts to

  /** A step from `w` to `w'` as the other threads can tell: which stage of its life it ends. */
  ghost predicate Stages(w: Worker, w': Worker) {
    && w'.pool == w.pool && w'.data == w.data && w'.epoch == w.epoch
    && (PreRegistered(w'.pc) <==> PreRegistered(w.pc) && !w.pc.Built?)
    && (InRegistry(w'.pc) <==> (InRegistry(w.pc) && !w.pc.Exiting?) || w.pc.Built?)
    && (Unsignalled(w'.pc) <==> Unsignalled(w.pc) && !w.pc.Ready?)
    && (HoldsLock(w'.pc) <==> (HoldsLock(w.pc) && !w.pc.Signalled?) || w.pc.Spawned?)
    && (w'.pc.Signalled? <==> w.pc.Ready?)
    && (w'.pc.Unlocked? <==> w.pc.Signalled?)
  }

  lemma MoveStages(w: Worker, move: Move, force: bool, marked: bool)
    requires MoveEnabled(w, move) && !w.pc.Ended?
    ensures Stages(w, NextWorker(w, move, force, marked))
  {
  }

  /** The registry gains the thread when it registers, loses it when it unregisters, and keeps
      every mark. */
  ghost predicate RegistryMoves(r: RegistryState, r': RegistryState, t: Tid, w: Worker) {
    && Agree(r')
    && (forall u :: u in r'.threads <==> (u in r.threads && (u != t || !w.pc.Exiting?)) || (u == t && w.pc.Built?))
    && (forall u :: u in r'.threads && u in r.threads ==>
          r'.threads[u].pool == r.threads[u].pool && r'.threads[u].shouldShutdown == r.threads[u].shouldShutdown)
    && (w.pc.Built? ==> r'.threads[t].pool == w.pool && !r'.threads[t].shouldShutdown)
    && (forall p :: Members(r', p) ==
          if p == w.pool && w.pc.Built? then Members(r, p) + {t}
          else if p == w.pool && w.pc.Exiting? then Members(r, p) - {t}
          else Members(r, p))
  }

  /** A worker's step before its end, as the rest of the system sees it. */
  ghost predicate Moves(s: Sys, t: Tid, s': Sys) {
    && t in s.workers && t in s'.workers && s'.workers == s.workers[t := s'.workers[t]]
    && var w := s.workers[t];
       && !w.pc.Ended? && Stages(w, s'.workers[t])
       && RegistryMoves(s.reg, s'.reg, t, w)
       && (w.pc.Built? ==> t !in s.reg.threads) && (w.pc.Spawned? ==> s.mutex == Free)
       && s'.mutex == NextMutex(s, t, w.pc)
       && s'.wakeup == (if w.pc.Ready? then WakeSuccess else s.wakeup)
       && s'.main == s.main.(inform := if w.pc.Unlocked? then Notified(s.main.inform) else s.main.inform)
       && s'.hist == s.hist.(registrations := s.hist.registrations + if w.pc.Built? then 1 else 0,
                             begun := s'.hist.begun, ended := s'.hist.ended)
       && s'.force == s.force && s'.failed == s.failed
  }

  /** A worker's last step. */
  ghost predicate Leaves(s: Sys, t: Tid, s': Sys) {
    && t in s.workers && s.workers[t].pc.Ended?
    && s' == s.(workers := s.workers - {t}, hist := s'.hist)
    && s'.hist == s.hist.(phantoms := s'.hist.phantoms)
  }

  // ----- what the registry asserts

  /** The assertion that a step runs into: the thread in an index where it should not be, or not
      where it should, or the registry destroyed with threads in it. */
  ghost predicate Violates(s: Sys, a: Action)
    requires Enabled(s, a)
  {
    match a
    case Act(t, move) =>
      var w := s.workers[t];
      var known, filed := t in s.reg.threads, t in Members(s.reg, w.pool);
      (match w.pc
       case Built => known || filed
       case Registered | CheckMark | NoteIdle => !known
       case InWork => move.StartJob? && !known
       case Exiting => !known || !filed
       case Ended(_) => s.main.phase == Released && s.workers - {t} == map[] && s.reg.threads != map[]
       case _ => false)
    case SendStop(_) => exists t :: t in Members(s.reg, Current(s.main).pool) && t !in s.reg.threads
    case ReleaseRegistry => s.workers == map[] && s.reg.threads != map[]
    case _ => false
  }

  lemma ViolationFails(s: Sys, t: Tid, move: Move)
    requires Enabled(s, Act(t, move))
    ensures WorkerStep(s, t, move).failed <==> Violates(s, Act(t, move))
  {
  }

  /** In any state whatever, a step fails exactly when it runs into an assertion. */
  lemma FailsExactly(s: Sys, a: Action)
    requires Enabled(s, a)
    ensures Apply(s, a).failed <==> Violates(s, a)
  {
    if a.Act? {
      ViolationFails(s, a.actor, a.move);
    } else if a.SendStop? {
      assert Members(s.reg, Current(s.main).pool) <= s.reg.threads.Keys <==> !Violates(s, a);
    }
  }

  // ----- registry ownership

  /** The registry holds exactly the live threads between registration and unregistration. */
  ghost predicate Owned(s: Sys) {
    && Agree(s.reg)
    && (forall t :: t in s.reg.threads ==>
          t in s.workers && InRegistry(s.workers[t].pc) && s.reg.threads[t].pool == s.workers[t].pool)
    && (forall t :: t in s.workers && InRegistry(s.workers[t].pc) ==> t in s.reg.threads)
  }

  lemma NoteMoves(r: RegistryState, t: Tid, w: Worker, note: string)
    requires Agree(r) && t in r.threads && !w.pc.Built? && !w.pc.Exiting?
    ensures RegistryMoves(r, SetState(r, t, note).value, t, w)
  {
    AgreeSetState(r, t, note);
  }

  lemma StillMoves(r: RegistryState, t: Tid, w: Worker)
    requires Agree(r) && !w.pc.Built? && !w.pc.Exiting?
    ensures RegistryMoves(r, r, t, w)
  {
  }

  lemma RegisterMoves(r: RegistryState, t: Tid, w: Worker)
    requires Agree(r) && t !in r.threads && w.pc.Built?
    ensures Register(r, w.pool, t).Some? && RegistryMoves(r, Register(r, w.pool, t).value, t, w)
  {
    AgreeRegister(r, w.pool, t);
  }

  lemma UnregisterMoves(r: RegistryState, t: Tid, w: Worker)
    requires Agree(r) && t in r.threads && r.threads[t].pool == w.pool && w.pc.Exiting?
    ensures Unregister(r, w.pool, t).Some? && RegistryMoves(r, Unregister(r, w.pool, t).value, t, w)
  {
    AgreeUnregister(r, w.pool, t);
  }

  /** The note that a worker's step writes, if any. */
  function NoteOf(w: Worker, move: Move): Option<string> {
    if w.pc.Registered? || w.pc.NoteIdle? then Some(IDLE_NOTE)
    else if w.pc.InWork? && move.StartJob? then Some(move.text)
    else None
  }

  lemma OtherStep(r: RegistryState, t: Tid, w: Worker, move: Move)
    requires !w.pc.Built? && !w.pc.Exiting? && (w.pc.CheckMark? ==> t in r.threads)
    ensures NextRegistry(r, t, w, move) ==
            if NoteOf(w, move).Some? then SetState(r, t, NoteOf(w, move).value) else Some(r)
  {
  }

  /** No assertion of the registry can fail in a worker's step. */
  lemma RegistryStep(r: RegistryState, t: Tid, w: Worker, move: Move)
    requires Agree(r) && MoveEnabled(w, move)
    requires t in r.threads <==> InRegistry(w.pc)
    requires t in r.threads ==> r.threads[t].pool == w.pool
    ensures NextRegistry(r, t, w, move).Some?
    ensures RegistryMoves(r, NextRegistry(r, t, w, move).value, t, w)
  {
    if w.pc.Built? {
      RegisterMoves(r, t, w);
    } else if w.pc.Exiting? {
      UnregisterMoves(r, t, w);
    } else {
      OtherStep(r, t, w, move);
      if NoteOf(w, move).Some? {
        NoteMoves(r, t, w, NoteOf(w, move).value);
      } else {
        StillMoves(r, t, w);
      }
    }
  }

  /** Every step of a worker is a move or its last, and fails no assertion. */
  lemma WorkerEffect(s: Sys, t: Tid, move: Move)
    requires Owned(s) && WorkerEnabled(s, t, move)
    ensures var s' := WorkerStep(s, t, move);
            if s.workers[t].pc.Ended? then Leaves(s, t, s') else Moves(s, t, s')
  {
    if s.workers[t].pc.Ended? {
      LeaveEffect(s, t, move);
    } else {
      MoveEffect(s, t, move);
    }
  }

  lemma InstallMoves(s: Sys, t: Tid, reg: RegistryState, worker: Worker, gauges: Gauges, counters: Counters,
                     hist: History)
    requires t in s.workers && !s.workers[t].pc.Ended? && Stages(s.workers[t], worker)
    requires RegistryMoves(s.reg, reg, t, s.workers[t])
    requires s.workers[t].pc.Built? ==> t !in s.reg.threads
    requires s.workers[t].pc.Spawned? ==> s.mutex == Free
    requires hist == s.hist.(registrations := s.hist.registrations + if s.workers[t].pc.Built? then 1 else 0,
                             begun := hist.begun, ended := hist.ended)
    ensures Moves(s, t, Install(s, t, reg, worker, gauges, counters, hist))
  {
  }

  lemma MoveEffect(s: Sys, t: Tid, move: Move)
    requires Owned(s) && WorkerEnabled(s, t, move) && !s.workers[t].pc.Ended?
    ensures Moves(s, t, WorkerStep(s, t, move))
  {
    var w := s.workers[t];
    RegistryStep(s.reg, t, w, move);
    MoveStages(w, move, s.force, Marked(s, t));
    InstallMoves(s, t, NextRegistry(s.reg, t, w, move).value, NextWorker(w, move, s.force, Marked(s, t)),
                 NextGauges(s.gauges, w), NextCounters(s.counters, w, move), NextHistory(s.hist, w, move));
  }

  lemma LeaveEffect(s: Sys, t: Tid, move: Move)
    requires Owned(s) && WorkerEnabled(s, t, move) && s.workers[t].pc.Ended?
    ensures Leaves(s, t, WorkerStep(s, t, move))
  {
    if s.workers - {t} == map[] {
      LastLeaves(s, t);
    }
  }

  lemma LastLeaves(s: Sys, t: Tid)
    requires Owned(s) && t in s.workers && !InRegistry(s.workers[t].pc) && s.workers - {t} == map[]
    ensures s.reg.threads == map[]
  {
    forall u | u in s.reg.threads
      ensures u in s.workers - {t}
    {
    }
  }

  /** What holds of every worker, and of the one that moved, holds of every worker again. */
  lemma EachWorker(s: Sys, t: Tid, move: Move, holds: Worker -> bool)
    requires Owned(s) && WorkerEnabled(s, t, move)
    requires forall u :: u in s.workers ==> holds(s.workers[u])
    requires !s.workers[t].pc.Ended? ==> holds(NextWorker(s.workers[t], move, s.force, Marked(s, t)))
    ensures forall u :: u in WorkerStep(s, t, move).workers ==> holds(WorkerStep(s, t, move).workers[u])
  {
    RegistryStep(s.reg, t, s.workers[t], move);
  }

  /** Main leaves the workers alone, except that it may spawn one. */
  lemma EachWorkerMain(s: Sys, a: Action, holds: Worker -> bool)
    requires Enabled(s, a) && !a.Act?
    requires forall u :: u in s.workers ==> holds(s.workers[u])
    requires a.Spawn? ==> holds(NewWorker(s))
    ensures forall u :: u in Apply(s, a).workers ==> holds(Apply(s, a).workers[u])
  {
  }

  /** Main reports nothing, and touches no thread but the one it spawns. */
  lemma MainSilent(s: Sys, a: Action)
    requires Enabled(s, a) && !a.Act?
    ensures Apply(s, a).gauges == s.gauges && Apply(s, a).counters == s.counters
    ensures Apply(s, a).hist.phantoms == s.hist.phantoms
    ensures Apply(s, a).hist.begun == s.hist.begun && Apply(s, a).hist.ended == s.hist.ended
    ensures !a.Spawn? ==> Apply(s, a).workers == s.workers
  {
  }

  lemma OwnedMoves(s: Sys, t: Tid, s': Sys)
    requires Owned(s) && Moves(s, t, s')
    ensures Owned(s')
  {
    assert forall u :: u in s'.workers && u != t ==> u in s.workers && s'.workers[u] == s.workers[u];
  }

  lemma OwnedLeaves(s: Sys, t: Tid, s': Sys)
    requires Owned(s) && Leaves(s, t, s')
    ensures Owned(s')
  {
  }

  /** What main does to the registry: pools looked up, and marks set but never cleared. */
  ghost predicate RegistryTended(r: RegistryState, r': RegistryState) {
    && Agree(r') && r'.threads.Keys == r.threads.Keys
    && (forall t :: t in r.threads ==>
          && r'.threads[t].pool == r.threads[t].pool
          && (r.threads[t].shouldShutdown ==> r'.threads[t].shouldShutdown))
    && (forall p :: Members(r', p) == Members(r, p))
  }

  lemma StopTends(r: RegistryState, pool: string, marks: set<Tid>)
    requires Agree(r)
    ensures RegistryTended(r, Touch(r, pool)) && RegistryTended(r, Mark(Touch(r, pool), marks))
  {
    AgreeTouch(r, pool);
    AgreeMark(Touch(r, pool), marks);
  }

  lemma MainTends(s: Sys, a: Action)
    requires Owned(s) && Enabled(s, a) && !a.Act?
    ensures RegistryTended(s.reg, Apply(s, a).reg)
  {
    if a.Go? {
      GoTends(s);
    } else if a.SendStop? {
      StopTends(s.reg, Current(s.main).pool, a.marks);
    }
  }

  lemma GoTends(s: Sys)
    requires Owned(s) && Informing(s.main)
    ensures RegistryTended(s.reg, InformStep(s).reg)
  {
    StopTends(s.reg, Current(s.main).pool, {});
  }

  /** No assertion of the registry can fail when main stops threads. */
  lemma StopSucceeds(s: Sys, marks: set<Tid>)
    requires Owned(s) && Enabled(s, SendStop(marks))
    ensures Members(s.reg, Current(s.main).pool) <= s.reg.threads.Keys
    ensures !Apply(s, SendStop(marks)).failed
  {
    var pool := Current(s.main).pool;
    forall t | t in Members(s.reg, pool)
      ensures t in s.reg.threads
    {
      MembersAgree(s.reg, pool, t);
    }
  }

  lemma OwnedMain(s: Sys, a: Action)
    requires Owned(s) && Enabled(s, a) && !a.Act?
    ensures Owned(Apply(s, a)) && !Apply(s, a).failed
  {
    MainTends(s, a);
    MainSilent(s, a);
    if a.SendStop? {
      StopSucceeds(s, a.marks);
    }
    OwnedTended(s, Apply(s, a));
  }

  lemma OwnedTended(s: Sys, s': Sys)
    requires Owned(s) && RegistryTended(s.reg, s'.reg)
    requires forall t :: t in s.workers ==> t in s'.workers && s'.workers[t] == s.workers[t]
    requires forall t :: t in s'.workers ==> t in s.workers || PreRegistered(s'.workers[t].pc)
    ensures Owned(s')
  {
  }

  // ----- the start handshake

  /** The thread that main waits for, before its registration. */
  ghost predicate UnderConstruction(s: Sys) {
    && Waiting(s.main.inform) && s.main.inform.tid in s.workers
    && PreRegistered(s.workers[s.main.inform.tid].pc)
  }

  ghost predicate Shaking(s: Sys) {
    // whoever has not signalled is the thread that main waits for
    && (forall t :: t in s.workers && Unsignalled(s.workers[t].pc) ==>
          Waiting(s.main.inform) && s.main.inform.tid == t && s.wakeup == WakeInit)
    && (forall t :: t in s.workers && s.workers[t].pc.Signalled? ==>
          Waiting(s.main.inform) && s.main.inform.tid == t && s.wakeup == WakeSuccess)
    && (Waiting(s.main.inform) && s.wakeup == WakeInit ==>
          s.main.inform.tid in s.workers && Unsignalled(s.workers[s.main.inform.tid].pc))
    && (s.main.inform.Spawning? ==> s.wakeup == WakeInit)
    // a sleeping main that could go on is about to be notified
    && (s.main.inform.Asleep? && s.wakeup == WakeSuccess ==>
          && s.main.inform.tid in s.workers
          && (s.workers[s.main.inform.tid].pc.Signalled? || s.workers[s.main.inform.tid].pc.Unlocked?))
    && s.hist.spawns == s.hist.registrations + if UnderConstruction(s) then 1 else 0
  }

  ghost predicate Locking(s: Sys) {
    && (forall t :: t in s.workers ==> (HoldsLock(s.workers[t].pc) <==> s.mutex == ByWorker(t)))
    && (s.mutex.ByWorker? ==> s.mutex.tid in s.workers)
    && (s.mutex == ByMain <==> MainHolds(s.main.inform))
  }

  lemma LockingMoves(s: Sys, t: Tid, s': Sys)
    requires Locking(s) && (Moves(s, t, s') || Leaves(s, t, s'))
    ensures Locking(s')
  {
  }

  lemma ShakingMoves(s: Sys, t: Tid, s': Sys)
    requires Locking(s) && Shaking(s) && (Moves(s, t, s') || Leaves(s, t, s'))
    ensures Shaking(s')
  {
  }

  lemma LockingMain(s: Sys, a: Action)
    requires Locking(s) && Structured(s) && Enabled(s, a) && !a.Act?
    ensures Locking(Apply(s, a))
  {
    if a.Go? {
      LockingGo(s);
    }
  }

  lemma LockingGo(s: Sys)
    requires Locking(s) && Structured(s) && InformEnabled(s)
    ensures Locking(InformStep(s))
  {
  }

  lemma ShakingMain(s: Sys, a: Action)
    requires Locking(s) && Shaking(s) && Structured(s) && Enabled(s, a) && !a.Act?
    ensures Shaking(Apply(s, a))
  {
    if a.Go? {
      ShakingGo(s);
    }
  }

  lemma ShakingGo(s: Sys)
    requires Locking(s) && Shaking(s) && Structured(s) && InformEnabled(s)
    ensures Shaking(InformStep(s))
  {
    if Waiting(s.main.inform) {
      ShakingWait(s);
    }
  }

  lemma ShakingWait(s: Sys)
    requires Locking(s) && Shaking(s) && InformEnabled(s) && Waiting(s.main.inform)
    ensures Shaking(InformStep(s))
  {
  }

  // ----- the main thread's own state

  /** The directives left to process come from the goal and are processed in order. */
  ghost predicate Structured(s: Sys) {
    var m := s.main;
    && (forall d :: d in m.clears ==> d.count == 0)
    && (forall d :: d in m.news ==> d.pool in m.goal.pools && d == DirectiveFor(m.goal, d.pool))
    && Distinct(m.news)
    && (m.phase !in {Passing, Clearing} ==> !Informing(m))
    && (!Informing(m) ==> m.inform == ReadCount)
    && (m.phase == AtTop ==> m.goal == m.config)
    && (m.phase in {Clearing, Finished} ==> s.force)
    && (s.force ==> m.phase in {Clearing, Finished, Released} && m.goal == EMPTY_CONFIG && m.news == [])
    && (!m.inform.ReadCount? && !m.inform.Stopping? ==> m.clears == [])
    && (m.inform.Stopping? ==> m.inform.count >= 1)
    && (Waiting(m.inform) || MainHolds(m.inform) ==> m.inform.left >= 1)
  }

  lemma StructuredMain(s: Sys, a: Action)
    requires Structured(s) && Enabled(s, a) && !a.Act?
    ensures Structured(Apply(s, a))
  {
    if a.Go? {
      StructuredGo(s);
    }
  }

  lemma StructuredGo(s: Sys)
    requires Structured(s) && InformEnabled(s)
    ensures Structured(InformStep(s))
  {
    if s.main.inform.ReadCount? || s.main.inform.TakeLock? {
      AdvanceStructured(s);
    }
  }

  /** Being done with a directive leaves the rest of the stream. */
  lemma AdvanceStructured(s: Sys)
    requires Structured(s) && Informing(s.main)
    ensures Structured(s.(main := Advance(s.main)))
  {
  }

  lemma StructuredMoves(s: Sys, t: Tid, s': Sys)
    requires Structured(s) && (Moves(s, t, s') || Leaves(s, t, s'))
    ensures Structured(s')
  {
  }

  /** A thread not yet registered was spawned for the directive being processed. */
  ghost predicate Newborn(s: Sys) {
    forall t :: t in s.workers && PreRegistered(s.workers[t].pc) ==>
      && Informing(s.main)
      && s.workers[t].pool == Current(s.main).pool && s.workers[t].data == Current(s.main).data
      && s.workers[t].epoch == s.hist.epoch
  }

  lemma NewbornMain(s: Sys, a: Action)
    requires Shaking(s) && Structured(s) && Newborn(s) && Enabled(s, a) && !a.Act?
    ensures Newborn(Apply(s, a))
  {
    if a.Go? {
      NewbornGo(s);
    }
  }

  lemma NewbornGo(s: Sys)
    requires Shaking(s) && Structured(s) && Newborn(s) && InformEnabled(s)
    ensures Newborn(InformStep(s))
  {
  }

  lemma NewbornMoves(s: Sys, t: Tid, s': Sys)
    requires Newborn(s) && (Moves(s, t, s') || Leaves(s, t, s'))
    ensures Newborn(s')
  {
  }
}
