/**
 The job counters, over every interleaving: what they say at any moment about the jobs begun so
 far, with the jobs in progress and the reports still to come accounted for.
 */
module JobLaw {
  import opened Registry
  import opened Metrics
  import opened Jobs
  import opened Protocol
  import opened Handshake
  import opened Reconcile
  import opened Sums

  /** The thread is at a job of the function. */
  ghost function AtJob(pool: string, fn: string): Worker -> int {
    (w: Worker) => if w.pool == pool && (w.pc == InJob(fn) || w.pc == JobFailing(fn)) then 1 else 0
  }

  /** The thread's job has failed and is still to be counted as an error. */
  ghost function Failing(pool: string, fn: string): Worker -> int {
    (w: Worker) => if w.pool == pool && w.pc == JobFailing(fn) then 1 else 0
  }

  /** Every job begun is a success, an error or still in progress. */
  ghost predicate Finished(s: Sys, pool: string, fn: string) {
    var t := Read(s.counters, pool, fn);
    t.successes + t.errors + Total(s.workers, AtJob(pool, fn)) == Get(s.hist.begun, (pool, fn))
  }

  /** The special counters have counted each job that ended their way. */
  ghost predicate Reported(c: Counters, ended: seq<Job>, pool: string, fn: string) {
    var t := Read(c, pool, fn);
    && t.successes == Tally(ended, Of(pool, fn, Answers))
    && t.timeouts == Tally(ended, Of(pool, fn, Expires))
    && t.http == Tally(ended, Of(pool, fn, Refused))
  }

  /** Every failure is an error, or will be as soon as its thread makes its second report. */
  ghost predicate Owed(s: Sys, pool: string, fn: string) {
    Read(s.counters, pool, fn).errors + Total(s.workers, Failing(pool, fn)) ==
    Tally(s.hist.ended, Of(pool, fn, Fails))
  }

  ghost predicate Accounted(s: Sys, pool: string, fn: string) {
    Finished(s, pool, fn) && Reported(s.counters, s.hist.ended, pool, fn) && Owed(s, pool, fn)
  }

  /** What a step adds to one count, by its label. */
  ghost function AddsTo(w: Worker, pool: string, yes: bool): int {
    if yes && w.pool == pool then 1 else 0
  }

  lemma CountersEnd(c: Counters, w: Worker, x: Exchange, pool: string, fn: string)
    requires w.pc.InJob?
    ensures var t, u := Read(c, pool, fn), Read(NextCounters(c, w, JobEnds(x)), pool, fn);
            var here := w.pc == InJob(fn);
            && u.successes == t.successes + AddsTo(w, pool, here && Answers(x))
            && u.errors == t.errors
            && u.timeouts == t.timeouts + AddsTo(w, pool, here && Expires(x))
            && u.http == t.http + AddsTo(w, pool, here && Refused(x))
  {
    OutcomeDecided(x);
    ReadCounts(c, w.pool, w.pc.fn, pool, fn, x.status % UINT16_MODULUS);
  }

  lemma CountersStep(c: Counters, w: Worker, move: Move, pool: string, fn: string)
    requires MoveEnabled(w, move)
    ensures var t, u := Read(c, pool, fn), Read(NextCounters(c, w, move), pool, fn);
            var ends := move.JobEnds? && w.pc == InJob(fn);
            && u.successes == t.successes + AddsTo(w, pool, ends && Answers(move.exchange))
            && u.errors == t.errors + AddsTo(w, pool, w.pc == JobFailing(fn))
            && u.timeouts == t.timeouts + AddsTo(w, pool, ends && Expires(move.exchange))
            && u.http == t.http + AddsTo(w, pool, ends && Refused(move.exchange))
  {
    if w.pc.JobFailing? {
      ReadCounts(c, w.pool, w.pc.fn, pool, fn, 0);
    } else if w.pc.InJob? {
      CountersEnd(c, w, move.exchange, pool, fn);
    }
  }

  lemma SharesStep(w: Worker, move: Move, force: bool, marked: bool, pool: string, fn: string)
    requires MoveEnabled(w, move) && !w.pc.Ended?
    ensures var w' := NextWorker(w, move, force, marked);
            var ends := move.JobEnds? && w.pc == InJob(fn);
            && AtJob(pool, fn)(w') == AtJob(pool, fn)(w) + AddsTo(w, pool, w.pc == JobIdled(fn))
               - AddsTo(w, pool, ends && Answers(move.exchange))
               - AddsTo(w, pool, w.pc == JobFailing(fn))
            && Failing(pool, fn)(w') == Failing(pool, fn)(w)
               + AddsTo(w, pool, ends && Fails(move.exchange))
               - AddsTo(w, pool, w.pc == JobFailing(fn))
  {
  }

  lemma HistoryStep(h: History, w: Worker, move: Move, pool: string, fn: string, kind: Exchange -> bool)
    requires MoveEnabled(w, move)
    ensures var h' := NextHistory(h, w, move);
            && Get(h'.begun, (pool, fn)) == Get(h.begun, (pool, fn)) + AddsTo(w, pool, w.pc == JobIdled(fn))
            && Tally(h'.ended, Of(pool, fn, kind)) == Tally(h.ended, Of(pool, fn, kind))
               + AddsTo(w, pool, move.JobEnds? && w.pc == InJob(fn) && kind(move.exchange))
  {
    if w.pc.InJob? {
      TallyOneMore(h.ended, Job(w.pool, w.pc.fn, move.exchange), Of(pool, fn, kind));
    }
  }

  lemma FinishedMove(s: Sys, t: Tid, move: Move, pool: string, fn: string)
    requires Owned(s) && Finished(s, pool, fn) && WorkerEnabled(s, t, move) && !s.workers[t].pc.Ended?
    ensures Finished(WorkerStep(s, t, move), pool, fn)
  {
    var w := s.workers[t];
    RegistryStep(s.reg, t, w, move);
    CountersStep(s.counters, w, move, pool, fn);
    SharesStep(w, move, s.force, Marked(s, t), pool, fn);
    HistoryStep(s.hist, w, move, pool, fn, Answers);
    TotalUpdate(s.workers, AtJob(pool, fn), t, NextWorker(w, move, s.force, Marked(s, t)));
  }

  lemma ReportedMove(c: Counters, h: History, w: Worker, move: Move, pool: string, fn: string)
    requires Reported(c, h.ended, pool, fn) && MoveEnabled(w, move)
    ensures Reported(NextCounters(c, w, move), NextHistory(h, w, move).ended, pool, fn)
  {
    CountersStep(c, w, move, pool, fn);
    HistoryStep(h, w, move, pool, fn, Answers);
    HistoryStep(h, w, move, pool, fn, Expires);
    HistoryStep(h, w, move, pool, fn, Refused);
  }

  lemma OwedMove(s: Sys, t: Tid, move: Move, pool: string, fn: string)
    requires Owned(s) && Owed(s, pool, fn) && WorkerEnabled(s, t, move) && !s.workers[t].pc.Ended?
    ensures Owed(WorkerStep(s, t, move), pool, fn)
  {
    var w := s.workers[t];
    RegistryStep(s.reg, t, w, move);
    CountersStep(s.counters, w, move, pool, fn);
    SharesStep(w, move, s.force, Marked(s, t), pool, fn);
    HistoryStep(s.hist, w, move, pool, fn, Fails);
    TotalUpdate(s.workers, Failing(pool, fn), t, NextWorker(w, move, s.force, Marked(s, t)));
  }

  lemma AccountedMove(s: Sys, t: Tid, move: Move, pool: string, fn: string)
    requires Owned(s) && Accounted(s, pool, fn) && WorkerEnabled(s, t, move) && !s.workers[t].pc.Ended?
    ensures Accounted(WorkerStep(s, t, move), pool, fn)
  {
    RegistryStep(s.reg, t, s.workers[t], move);
    FinishedMove(s, t, move, pool, fn);
    ReportedMove(s.counters, s.hist, s.workers[t], move, pool, fn);
    OwedMove(s, t, move, pool, fn);
  }

  lemma AccountedLeave(s: Sys, t: Tid, s': Sys, pool: string, fn: string)
    requires Accounted(s, pool, fn) && Leaves(s, t, s')
    ensures Accounted(s', pool, fn)
  {
    TotalRemove(s.workers, AtJob(pool, fn), t);
    TotalRemove(s.workers, Failing(pool, fn), t);
  }

  lemma AccountedSame(s: Sys, s': Sys, pool: string, fn: string)
    requires Accounted(s, pool, fn) && s'.counters == s.counters
    requires s'.hist.begun == s.hist.begun && s'.hist.ended == s.hist.ended
    requires Total(s'.workers, AtJob(pool, fn)) == Total(s.workers, AtJob(pool, fn))
    requires Total(s'.workers, Failing(pool, fn)) == Total(s.workers, Failing(pool, fn))
    ensures Accounted(s', pool, fn)
  {
  }

  lemma AccountedSpawn(s: Sys, t: Tid, pool: string, fn: string)
    requires Accounted(s, pool, fn) && Enabled(s, Spawn(t))
    ensures Accounted(Apply(s, Spawn(t)), pool, fn)
  {
    TotalUpdate(s.workers, AtJob(pool, fn), t, NewWorker(s));
    TotalUpdate(s.workers, Failing(pool, fn), t, NewWorker(s));
    AccountedSame(s, Apply(s, Spawn(t)), pool, fn);
  }

  lemma AccountedMain(s: Sys, a: Action, pool: string, fn: string)
    requires Accounted(s, pool, fn) && Enabled(s, a) && !a.Act?
    ensures Accounted(Apply(s, a), pool, fn)
  {
    if a.Spawn? {
      AccountedSpawn(s, a.newcomer, pool, fn);
    } else {
      MainSilent(s, a);
      AccountedSame(s, Apply(s, a), pool, fn);
    }
  }

  lemma AccountedStep(states: seq<Sys>, actions: seq<Action>, i: nat, pool: string, fn: string)
    requires Behaviour(states, actions) && i < |actions| && Accounted(states[i], pool, fn)
    ensures Accounted(states[i + 1], pool, fn)
  {
    InvRun(states, actions, i);
    assert StepAt(states, actions, i);
    var s, a := states[i], actions[i];
    if !a.Act? {
      AccountedMain(s, a, pool, fn);
    } else if s.workers[a.actor].pc.Ended? {
      WorkerEffect(s, a.actor, a.move);
      AccountedLeave(s, a.actor, states[i + 1], pool, fn);
    } else {
      AccountedMove(s, a.actor, a.move, pool, fn);
    }
  }

  lemma {:induction false} NoHttpErrors(pool: string, fn: string, limit: nat)
    ensures HttpErrors(map[], pool, fn, limit) == 0
  {
    if limit > 0 {
      NoHttpErrors(pool, fn, limit - 1);
    }
  }

  /** The laws hold in every state of every run. */
  lemma {:induction false} AccountedRun(states: seq<Sys>, actions: seq<Action>, i: nat, pool: string, fn: string)
    requires Behaviour(states, actions) && i < |states|
    ensures Accounted(states[i], pool, fn)
  {
    if i == 0 {
      NoHttpErrors(pool, fn, UINT16_MODULUS);
    } else {
      AccountedRun(states, actions, i - 1, pool, fn);
      AccountedStep(states, actions, i - 1, pool, fn);
    }
  }

  /**
   At any moment timeouts and HTTP errors exceed the errors by at most the threads between their
   two reports, and not at all exactly when those are no more than the failures of other kinds,
   so when there is none; and with no job in progress every job begun is a success or an error.
   */
  lemma ErrorsIncludeTheRest(states: seq<Sys>, actions: seq<Action>, i: nat, pool: string, fn: string)
    requires Behaviour(states, actions) && i < |states|
    ensures var t := Read(states[i].counters, pool, fn);
            && t.timeouts + t.http <= t.errors + Total(states[i].workers, Failing(pool, fn))
            && (t.timeouts + t.http <= t.errors <==>
                Total(states[i].workers, Failing(pool, fn)) <= Tally(states[i].hist.ended, Of(pool, fn, Breaks)))
            && ((forall u :: u in states[i].workers && states[i].workers[u].pool == pool ==>
                   states[i].workers[u].pc != JobFailing(fn)) ==> t.timeouts + t.http <= t.errors)
            && ((forall u :: u in states[i].workers && states[i].workers[u].pool == pool ==>
                   states[i].workers[u].pc !in {InJob(fn), JobFailing(fn)}) ==>
                  t.successes + t.errors == Get(states[i].hist.begun, (pool, fn)))
  {
    AccountedRun(states, actions, i, pool, fn);
    TallySplits(states[i].hist.ended, pool, fn);
    TotalNonNegative(states[i].workers, Failing(pool, fn));
    TotalNonNegative(states[i].workers, AtJob(pool, fn));
  }

  // ----- the statuses

  /** The counter of a status label counts the jobs refused with that status, as far as it shows. */
  ghost predicate Labelled(s: Sys, pool: string, fn: string, shown: nat) {
    Get(s.counters.http, (pool, fn, shown)) == Tally(s.hist.ended, Of(pool, fn, RefusedWith(shown)))
  }

  lemma LabelStep(c: Counters, w: Worker, move: Move, pool: string, fn: string, shown: nat)
    requires MoveEnabled(w, move)
    ensures Get(NextCounters(c, w, move).http, (pool, fn, shown)) == Get(c.http, (pool, fn, shown))
            + AddsTo(w, pool, move.JobEnds? && w.pc == InJob(fn) && RefusedWith(shown)(move.exchange))
  {
  }

  lemma LabelledMove(s: Sys, t: Tid, move: Move, pool: string, fn: string, shown: nat)
    requires Owned(s) && Labelled(s, pool, fn, shown) && WorkerEnabled(s, t, move) && !s.workers[t].pc.Ended?
    ensures Labelled(WorkerStep(s, t, move), pool, fn, shown)
  {
    RegistryStep(s.reg, t, s.workers[t], move);
    LabelStep(s.counters, s.workers[t], move, pool, fn, shown);
    HistoryStep(s.hist, s.workers[t], move, pool, fn, RefusedWith(shown));
  }

  lemma LabelledStep(states: seq<Sys>, actions: seq<Action>, i: nat, pool: string, fn: string, shown: nat)
    requires Behaviour(states, actions) && i < |actions| && Labelled(states[i], pool, fn, shown)
    ensures Labelled(states[i + 1], pool, fn, shown)
  {
    InvRun(states, actions, i);
    assert StepAt(states, actions, i);
    var s, a := states[i], actions[i];
    if !a.Act? {
      MainSilent(s, a);
    } else if s.workers[a.actor].pc.Ended? {
      WorkerEffect(s, a.actor, a.move);
    } else {
      LabelledMove(s, a.actor, a.move, pool, fn, shown);
    }
  }

  lemma {:induction false} LabelledRun(states: seq<Sys>, actions: seq<Action>, i: nat, pool: string, fn: string,
                                       shown: nat)
    requires Behaviour(states, actions) && i < |states|
    ensures Labelled(states[i], pool, fn, shown)
  {
    if i > 0 {
      LabelledRun(states, actions, i - 1, pool, fn, shown);
      LabelledStep(states, actions, i - 1, pool, fn, shown);
    }
  }
}
