/**
 The worker's single steps and the client's `run` as one piece, over every run: whatever the
 schedule, a thread's calls, client state, stack and note are those of a session of the client
 on the replies that the thread received.
 */
module Calls {
  import opened Registry
  import opened Metrics
  import opened Client
  import opened Protocol
  import opened Handshake
  import opened Reconcile

  /** What the client makes of the replies that the thread has received. */
  ghost function Played(w: Worker): RunEnd {
    Session(FRESH_CLIENT, w.pool, w.scripts)
  }

  /** The last of the calls of `run` is still going on; those before it have returned. */
  ghost predicate Underway(pool: string, scripts: seq<seq<Reply>>) {
    && scripts != [] && Session(FRESH_CLIENT, pool, scripts).result == Blocked
    && Session(FRESH_CLIENT, pool, scripts[..|scripts| - 1]).result == Returned
  }

  function Rest(stack: seq<string>): seq<string> {
    if stack == [] then [] else stack[1..]
  }

  ghost predicate Matches(w: Worker, c: ClientView) {
    w.client == c.state && w.active == c.ledger.active && w.note == c.note && w.ran == []
  }

  /** The jobs of the current work call are on top of the stack, and its reply is to come. */
  ghost predicate AtWork(w: Worker, c: ClientView, extra: seq<string>) {
    && w.client == GrabJob && c.state == GrabJob
    && w.active == extra + RunJobs(c.ledger, w.pool, w.ran).active
  }

  /** Where the thread stands against the session. */
  ghost predicate Stands(w: Worker, e: RunEnd) {
    && w.calls == e.events
    && (if InRun(w.pc) then e.result == Blocked else e.result == Returned || e.result == Threw(false))
    && match w.pc
       case Spawned | Building => w.client == ClientState.Init && w.scripts == [] && w.active == [] && w.ran == []
       case Built | Registered => w.client == GrabJob && w.scripts == [] && w.active == [] && w.ran == []
       case Ready | Signalled | Unlocked => w.scripts == [] && Matches(w, FRESH_CLIENT)
       case CheckForce | CheckMark => e.result == Returned && Matches(w, e.client)
       case Running => Matches(w, e.client)
       case InWork | JobFailing(_) => AtWork(w, e.client, []) && w.note == LastNote(e.client.note, w.ran)
       case JobNoted(_) | JobActive(_) | JobIdled(_) => AtWork(w, e.client, [])
       case InJob(fn) => AtWork(w, e.client, [fn])
       case Finish | FinishActive | FinishIdled =>
         && e.result == Returned && w.client == GrabJob && w.ran == []
         && e.client == ClientView(GrabJob, IDLE_NOTE, e.client.ledger) && e.client.ledger.active == Rest(w.active)
       case NoteIdle => e.result == Returned && Matches(w.(note := IDLE_NOTE), e.client)
       case Exiting | Leaving => Matches(w, e.client)
       case LeaveActive | LeaveIdled => Matches(w, e.client) && w.active != []
       case Ended(clean) =>
         && Matches(w.(active := e.client.ledger.active), e.client) && w.active == Rest(e.client.ledger.active)
         && (clean <==> e.client.ledger.active == [])
  }

  ghost predicate Plays(w: Worker) {
    Stands(w, Played(w)) && (InRun(w.pc) ==> Underway(w.pool, w.scripts))
  }

  lemma {:induction false} RunJobsOneMore(l: Ledger, pool: string, jobs: seq<JobRun>, job: JobRun)
    ensures RunJobs(l, pool, jobs + [job]).active == [job.fn] + RunJobs(l, pool, jobs).active
    decreases jobs
  {
    if jobs == [] {
      assert jobs + [job] == [job] && [job][1..] == [];
    } else {
      assert (jobs + [job])[1..] == jobs[1..] + [job];
      RunJobsOneMore(StartWork(l, pool, jobs[0].fn), pool, jobs[1..], job);
    }
  }

  /** A reply to the call that the thread is in. */
  lemma PlaysReply(w: Worker, r: Reply)
    requires Plays(w) && Underway(w.pool, w.scripts)
    ensures Played(w).client.state != ClientState.Init
    ensures Session(FRESH_CLIENT, w.pool, Heard(w.scripts, r)) == Answered(Played(w), w.pool, r)
    ensures Answered(Played(w), w.pool, r).result == Blocked ==> Underway(w.pool, Heard(w.scripts, r))
  {
    SessionReply(FRESH_CLIENT, w.pool, w.scripts, r);
    var heard := Heard(w.scripts, r);
    assert heard[..|heard| - 1] == w.scripts[..|w.scripts| - 1];
  }

  /** So a thread that stands where the reply takes the session plays on. */
  lemma PlaysOn(w: Worker, r: Reply, w': Worker, e': RunEnd)
    requires Plays(w) && Underway(w.pool, w.scripts) && Played(w).client.state != ClientState.Init
    requires w'.pool == w.pool && w'.scripts == Heard(w.scripts, r)
    requires e' == Answered(Played(w), w.pool, r) && Stands(w', e')
    ensures Plays(w')
  {
    PlaysReply(w, r);
  }

  lemma StandsWork(w: Worker, e: RunEnd, code: Code, w': Worker, force: bool, marked: bool)
    requires Stands(w, e) && w.pc.InWork? && w' == NextWorker(w, WorkReturns(code), force, marked)
    ensures w'.pool == w.pool && w'.scripts == Heard(w.scripts, Reply(w.ran, code))
    ensures Stands(w', Answered(e, w.pool, Reply(w.ran, code)))
  {
  }

  lemma PlaysWork(w: Worker, code: Code, w': Worker, force: bool, marked: bool)
    requires Plays(w) && w.pc.InWork? && w' == NextWorker(w, WorkReturns(code), force, marked)
    ensures Plays(w')
  {
    StandsWork(w, Played(w), code, w', force, marked);
    PlaysOn(w, Reply(w.ran, code), w', Answered(Played(w), w.pool, Reply(w.ran, code)));
  }

  lemma PlaysWait(w: Worker, code: Code, force: bool, marked: bool)
    requires Plays(w) && MoveEnabled(w, WaitReturns(code))
    ensures Plays(NextWorker(w, WaitReturns(code), force, marked))
  {
    PlaysReply(w, Reply([], code));
  }

  lemma PlaysJob(w: Worker, move: Move, force: bool, marked: bool)
    requires Plays(w) && MoveEnabled(w, move) && move.JobEnds?
    ensures Plays(NextWorker(w, move, force, marked))
  {
    RunJobsOneMore(Played(w).client.ledger, w.pool, w.ran, JobRun(w.pc.fn, w.note, move.exchange));
  }

  lemma StandsNext(w: Worker, e: RunEnd, force: bool)
    requires Stands(w, e) && w.pc.CheckMark?
    ensures Stands(NextWorker(w, Proceed, force, false), e.(result := Blocked))
  {
  }

  /** Another call of `run` begins when both checks let the thread through. */
  lemma PlaysNext(w: Worker, force: bool)
    requires Plays(w) && w.pc.CheckMark?
    ensures Plays(NextWorker(w, Proceed, force, false))
  {
    SessionNext(FRESH_CLIENT, w.pool, w.scripts);
    var next := w.scripts + [[]];
    assert next[..|next| - 1] == w.scripts;
    StandsNext(w, Played(w), force);
  }

  /** The other steps leave the session where it is: those before the first call of `run`, */
  lemma StandsStarting(w: Worker, e: RunEnd, force: bool, marked: bool)
    requires Stands(w, e) && e.result == Returned && e.client == FRESH_CLIENT
    requires Unsignalled(w.pc) || w.pc.Signalled? || w.pc.Unlocked?
    ensures Stands(NextWorker(w, Proceed, force, marked), e)
  {
  }

  /** those of a call and of the checks around it, */
  lemma StandsStill(w: Worker, e: RunEnd, force: bool, marked: bool)
    requires Stands(w, e) && e.client.state != ClientState.Init && MoveEnabled(w, Proceed)
    requires InRun(w.pc) || w.pc.CheckForce? || (w.pc.CheckMark? && marked)
    ensures Stands(NextWorker(w, Proceed, force, marked), e)
  {
  }

  /** and those after a call. */
  lemma StandsEnding(w: Worker, e: RunEnd, force: bool, marked: bool)
    requires Stands(w, e) && MoveEnabled(w, Proceed) && !w.pc.Ended?
    requires w.pc.Finish? || w.pc.FinishActive? || w.pc.FinishIdled? || w.pc.NoteIdle? || w.pc.Exiting?
             || Unregistered(w.pc)
    ensures Stands(NextWorker(w, Proceed, force, marked), e)
  {
  }

  lemma PlaysProceed(w: Worker, force: bool, marked: bool)
    requires Plays(w) && MoveEnabled(w, Proceed) && !w.pc.Ended? && !(w.pc.CheckMark? && !marked)
    ensures Plays(NextWorker(w, Proceed, force, marked))
  {
    if Unsignalled(w.pc) || w.pc.Signalled? || w.pc.Unlocked? {
      StandsStarting(w, Played(w), force, marked);
    } else if InRun(w.pc) || w.pc.CheckForce? || w.pc.CheckMark? {
      SessionDiscipline(FRESH_CLIENT, w.pool, w.scripts);
      StandsStill(w, Played(w), force, marked);
    } else {
      StandsEnding(w, Played(w), force, marked);
    }
  }

  lemma PlaysStep(w: Worker, move: Move, force: bool, marked: bool)
    requires Plays(w) && MoveEnabled(w, move) && !w.pc.Ended?
    ensures Plays(NextWorker(w, move, force, marked))
  {
    match move
    case WorkReturns(code) => PlaysWork(w, code, NextWorker(w, move, force, marked), force, marked);
    case WaitReturns(code) => PlaysWait(w, code, force, marked);
    case JobEnds(_) => PlaysJob(w, move, force, marked);
    case StartJob(_, _) =>
    case Proceed =>
      if w.pc.CheckMark? && !marked {
        PlaysNext(w, force);
      } else {
        PlaysProceed(w, force, marked);
      }
  }

  ghost predicate AllPlay(s: Sys) {
    forall t :: t in s.workers ==> Plays(s.workers[t])
  }

  lemma PlayWorker(s: Sys, t: Tid, move: Move)
    requires Owned(s) && AllPlay(s) && WorkerEnabled(s, t, move)
    ensures AllPlay(WorkerStep(s, t, move))
  {
    if !s.workers[t].pc.Ended? {
      PlaysStep(s.workers[t], move, s.force, Marked(s, t));
    }
    EachWorker(s, t, move, Plays);
  }

  lemma PlayMain(s: Sys, a: Action)
    requires AllPlay(s) && Enabled(s, a) && !a.Act?
    ensures AllPlay(Apply(s, a))
  {
    EachWorkerMain(s, a, Plays);
  }

  /** In every state of every run, each thread stands where the session on its replies stands. */
  lemma {:induction false} SessionRun(states: seq<Sys>, actions: seq<Action>, i: nat)
    requires Behaviour(states, actions) && i < |states|
    ensures AllPlay(states[i])
  {
    if i > 0 {
      SessionRun(states, actions, i - 1);
      InvRun(states, actions, i - 1);
      assert StepAt(states, actions, i - 1);
      if actions[i - 1].Act? {
        PlayWorker(states[i - 1], actions[i - 1].actor, actions[i - 1].move);
      } else {
        PlayMain(states[i - 1], actions[i - 1]);
      }
    }
  }

  /** Two consecutive work calls among the calls of a thread. */
  ghost predicate Consecutive(calls: seq<Event>, j: nat, k: nat) {
    && j < k < |calls| && calls[j].Work? && calls[k].Work?
    && forall m :: j < m < k ==> !calls[m].Work?
  }

  /** Every thread of every run waits properly between its work calls. */
  lemma CallDiscipline(states: seq<Sys>, actions: seq<Action>, i: nat, t: Tid, j: nat, k: nat)
    requires Behaviour(states, actions) && i < |states| && t in states[i].workers
    requires Consecutive(states[i].workers[t].calls, j, k)
    ensures WaitsProperly(states[i].workers[t].calls, j, k)
  {
    SessionRun(states, actions, i);
    SessionDiscipline(FRESH_CLIENT, states[i].workers[t].pool, states[i].workers[t].scripts);
    BetweenWorkCalls(states[i].workers[t].calls, j, k);
  }

  /** The client's `run` is never entered before its construction is complete. */
  lemma NeverUnready(states: seq<Sys>, actions: seq<Action>, i: nat, t: Tid)
    requires Behaviour(states, actions) && i < |states| && t in states[i].workers
    requires InRun(states[i].workers[t].pc)
    ensures states[i].workers[t].client != ClientState.Init
  {
    SessionRun(states, actions, i);
    SessionDiscipline(FRESH_CLIENT, states[i].workers[t].pool, states[i].workers[t].scripts);
  }

  // ----- the notes that the status port shows

  /** The record of every registered thread shows its last note. */
  ghost predicate Noted(s: Sys) {
    forall t :: t in s.reg.threads ==> t in s.workers && s.reg.threads[t].state == s.workers[t].note
  }

  lemma NotedRegistry(r: RegistryState, t: Tid, w: Worker, move: Move, force: bool, marked: bool)
    requires MoveEnabled(w, move) && !w.pc.Ended? && NextRegistry(r, t, w, move).Some?
    requires t in r.threads ==> r.threads[t].state == w.note
    requires t in r.threads <==> InRegistry(w.pc)
    ensures var r' := NextRegistry(r, t, w, move).value;
            && (t in r'.threads ==> r'.threads[t].state == NextWorker(w, move, force, marked).note)
            && (forall u :: u in r'.threads && u != t ==> u in r.threads && r'.threads[u] == r.threads[u])
  {
  }

  lemma NotedMoves(s: Sys, t: Tid, s': Sys)
    requires Noted(s) && Moves(s, t, s')
    requires t in s'.reg.threads ==> s'.reg.threads[t].state == s'.workers[t].note
    requires forall u :: u in s'.reg.threads && u != t ==> u in s.reg.threads && s'.reg.threads[u] == s.reg.threads[u]
    ensures Noted(s')
  {
  }

  lemma NotedWorker(s: Sys, t: Tid, move: Move)
    requires Owned(s) && Noted(s) && WorkerEnabled(s, t, move)
    ensures Noted(WorkerStep(s, t, move))
  {
    WorkerEffect(s, t, move);
    if !s.workers[t].pc.Ended? {
      RegistryStep(s.reg, t, s.workers[t], move);
      NotedRegistry(s.reg, t, s.workers[t], move, s.force, Marked(s, t));
      NotedMoves(s, t, WorkerStep(s, t, move));
    }
  }

  lemma NotedMain(s: Sys, a: Action)
    requires Noted(s) && Enabled(s, a) && !a.Act?
    ensures Noted(Apply(s, a))
  {
    MainSilent(s, a);
    NotesStay(s, a);
  }

  /** Main writes no note. */
  lemma NotesStay(s: Sys, a: Action)
    requires Enabled(s, a) && !a.Act?
    ensures forall t :: t in Apply(s, a).reg.threads ==>
              t in s.reg.threads && Apply(s, a).reg.threads[t].state == s.reg.threads[t].state
  {
  }

  lemma {:induction false} NotedRun(states: seq<Sys>, actions: seq<Action>, i: nat)
    requires Behaviour(states, actions) && i < |states|
    ensures Noted(states[i])
  {
    if i > 0 {
      NotedRun(states, actions, i - 1);
      InvRun(states, actions, i - 1);
      assert StepAt(states, actions, i - 1);
      if actions[i - 1].Act? {
        NotedWorker(states[i - 1], actions[i - 1].actor, actions[i - 1].move);
      } else {
        NotedMain(states[i - 1], actions[i - 1]);
      }
    }
  }

  lemma {:induction false} RunIdles(c: ClientView, pool: string, script: seq<Reply>)
    ensures var e := RunFrom(c, pool, script);
            e.result == Returned && e.client.state == GrabJob ==> e.client.note == IDLE_NOTE
    decreases script
  {
    if c.state != ClientState.Init && script != [] {
      var (c', verdict, _, _) := OneCall(c, pool, script[0]);
      if verdict == Wait {
        RunIdles(c', pool, script[1..]);
      }
    }
  }

  lemma {:induction false} SessionIdles(c: ClientView, pool: string, scripts: seq<seq<Reply>>)
    requires c.state == GrabJob ==> c.note == IDLE_NOTE
    ensures var e := Session(c, pool, scripts);
            e.result == Returned && e.client.state == GrabJob ==> e.client.note == IDLE_NOTE
    decreases scripts
  {
    if scripts != [] {
      RunIdles(c, pool, scripts[0]);
      var first := RunFrom(c, pool, scripts[0]);
      if first.result == Returned {
        SessionIdles(first.client, pool, scripts[1..]);
      }
    }
  }

  /** Between two calls of `run` a thread shows as waiting for work, unless it is polling. */
  lemma IdleThreadsShow(states: seq<Sys>, actions: seq<Action>, i: nat, t: Tid)
    requires Behaviour(states, actions) && i < |states| && t in states[i].reg.threads && t in states[i].workers
    requires states[i].workers[t].pc in {CheckForce, CheckMark} && states[i].workers[t].client == GrabJob
    ensures states[i].reg.threads[t].state == "Waiting for work"
  {
    SessionRun(states, actions, i);
    NotedRun(states, actions, i);
    SessionIdles(FRESH_CLIENT, states[i].workers[t].pool, states[i].workers[t].scripts);
  }

  /** From the start of a job its thread shows that job's note. */
  lemma JobShows(states: seq<Sys>, actions: seq<Action>, i: nat)
    requires Behaviour(states, actions) && i < |actions| && actions[i].Act? && actions[i].move.StartJob?
    ensures actions[i].actor in states[i + 1].reg.threads
    ensures states[i + 1].reg.threads[actions[i].actor].state == actions[i].move.text
  {
    InvRun(states, actions, i);
    assert StepAt(states, actions, i);
    JobNotes(states[i], actions[i].actor, actions[i].move);
  }

  lemma JobNotes(s: Sys, t: Tid, move: Move)
    requires Owned(s) && WorkerEnabled(s, t, move) && move.StartJob?
    ensures var r := WorkerStep(s, t, move).reg; t in r.threads && r.threads[t].state == move.text
  {
    RegistryStep(s.reg, t, s.workers[t], move);
  }

  // ----- why threads leave

  /** What makes a thread leave its loop in its next step. */
  ghost predicate MustLeave(w: Worker, move: Move, force: bool, marked: bool) {
    match w.pc
    case CheckForce => force
    case CheckMark => marked
    case InWork => move.WorkReturns? && !Completes(move.code) && !AsksToWait(move.code)
    case Running => move.WaitReturns? && move.code != Success && move.code != Timeout
    case _ => false
  }

  lemma LeavesWhenDue(w: Worker, move: Move, force: bool, marked: bool)
    requires MoveEnabled(w, move) && !w.pc.Ended? && (w.pc.Running? ==> w.client != ClientState.Init)
    ensures NextWorker(w, move, force, marked).pc.Exiting? <==> MustLeave(w, move, force, marked)
  {
  }

  lemma LeavingWorker(s: Sys, t: Tid, move: Move)
    requires Owned(s) && WorkerEnabled(s, t, move)
    requires s.workers[t].pc.Running? ==> s.workers[t].client != ClientState.Init
    ensures var s' := WorkerStep(s, t, move);
            t in s'.workers && s'.workers[t].pc.Exiting? <==> MustLeave(s.workers[t], move, s.force, Marked(s, t))
  {
    WorkerEffect(s, t, move);
    if !s.workers[t].pc.Ended? {
      LeavesWhenDue(s.workers[t], move, s.force, Marked(s, t));
    }
  }

  /**
   A thread leaves its loop for a reason and only then: its checks saw the force flag or its
   mark, or a library call returned a code that `run` throws on.
   */
  lemma LeavesForReason(states: seq<Sys>, actions: seq<Action>, i: nat)
    requires Behaviour(states, actions) && i < |actions| && actions[i].Act?
    ensures actions[i].actor in states[i].workers
    ensures var t := actions[i].actor;
            t in states[i + 1].workers && states[i + 1].workers[t].pc.Exiting? <==>
            MustLeave(states[i].workers[t], actions[i].move, states[i].force, Marked(states[i], t))
  {
    InvRun(states, actions, i);
    assert StepAt(states, actions, i);
    if InRun(states[i].workers[actions[i].actor].pc) {
      NeverUnready(states, actions, i, actions[i].actor);
    }
    LeavingWorker(states[i], actions[i].actor, actions[i].move);
  }
}
