/**
 The gearman client that a worker thread drives: a two-state machine over the replies of the
 gearman library, and the loop around it that checks for shutdown and retries. The library is an
 arbitrary finite script of replies; a script that runs out stands for a call still blocked, so
 that the scripts together cover every prefix of every run.
 */
module Client {
  import opened Registry
  import opened Metrics
  import opened Jobs

  datatype ClientState = Init | GrabJob | Poll

  /** The return codes that the client tells apart. */
  datatype Code =
    | Success | IoWait | NoJobs
    | WorkError | WorkData | WorkWarning | WorkStatus | WorkException | WorkFail
    | Timeout | NotConnected | NoActiveFds
    | Unknown(code: int)

  datatype Verdict = Wait | Done | Throw

  /** What a return code of `gearman_worker_work` makes the client do. */
  function AfterWork(c: Code): Verdict {
    match c
    case IoWait | NoJobs => Wait
    case WorkError | WorkData | WorkWarning | WorkStatus | WorkException | WorkFail | Success => Done
    case _ => Throw
  }

  /** What a return code of `gearman_worker_wait` makes it do: `Wait` is "call work again". */
  function AfterWait(c: Code): Verdict {
    match c
    case Success => Wait
    case Timeout => Done
    case _ => Throw
  }

  /** The seven codes of a work call that mean that a job is done with, well or badly. */
  ghost predicate Completes(c: Code) {
    c in {Success, WorkError, WorkData, WorkWarning, WorkStatus, WorkException, WorkFail}
  }

  /** The two that mean that there is none yet. */
  ghost predicate AsksToWait(c: Code) {
    c in {IoWait, NoJobs}
  }

  /** A job handed to the callback: its function, the note it leaves in the registry, its exchange. */
  datatype JobRun = JobRun(fn: string, note: string, exchange: Exchange)

  /** A call of the library: the jobs that it ran (for a work call) and the code it returned. */
  datatype Reply = Reply(jobs: seq<JobRun>, code: Code)

  datatype Event = Work(code: Code) | Waited(code: Code)

  /** `Threw(b)` is a client exception, retriable or not; `Crashed` any other exception. */
  datatype RunResult = Returned | Threw(retriable: bool) | Crashed | Blocked

  /** What the client carries from call to call: its state, its thread's note and ledger. */
  datatype ClientView = ClientView(state: ClientState, note: string, ledger: Ledger)

  datatype RunEnd = RunEnd(result: RunResult, client: ClientView, jobs: seq<Job>, events: seq<Event>)

  function RunJobs(l: Ledger, pool: string, jobs: seq<JobRun>): Ledger
    decreases jobs
  {
    if jobs == [] then l else RunJobs(StartWork(l, pool, jobs[0].fn), pool, jobs[1..])
  }

  function JobsOf(pool: string, jobs: seq<JobRun>): seq<Job> {
    if jobs == [] then [] else [Job(pool, jobs[0].fn, jobs[0].exchange)] + JobsOf(pool, jobs[1..])
  }

  function LastNote(note: string, jobs: seq<JobRun>): string {
    if jobs == [] then note else jobs[|jobs| - 1].note
  }

  /** One library call: a work call, with the jobs that it runs, or a wait. */
  function OneCall(c: ClientView, pool: string, reply: Reply): (ClientView, Verdict, seq<Job>, Event)
    requires c.state != Init
  {
    if c.state == GrabJob then
      var l := RunJobs(c.ledger, pool, reply.jobs);
      var verdict := AfterWork(reply.code);
      (ClientView(if verdict == Wait then Poll else GrabJob,
                  if verdict == Done then IDLE_NOTE else LastNote(c.note, reply.jobs),
                  if verdict == Done then CompleteWork(l, pool) else l),
       verdict, JobsOf(pool, reply.jobs), Work(reply.code))
    else
      var verdict := AfterWait(reply.code);
      (c.(state := if verdict == Wait then GrabJob else Poll), verdict, [], Waited(reply.code))
  }

  /** One call of the client's `run`, as a function of the state it starts in and the script. */
  function RunFrom(c: ClientView, pool: string, script: seq<Reply>): RunEnd
    decreases script
  {
    if c.state == Init then RunEnd(Crashed, c, [], [])
    else if script == [] then RunEnd(Blocked, c, [], [])
    else
      var (c', verdict, jobs, event) := OneCall(c, pool, script[0]);
      match verdict
      case Done => RunEnd(Returned, c', jobs, [event])
      case Throw => RunEnd(Threw(false), c', jobs, [event])
      case Wait => After(jobs, [event], RunFrom(c', pool, script[1..]))
  }

  /** A run preceded by what happened before it. */
  function After(jobs: seq<Job>, events: seq<Event>, rest: RunEnd): RunEnd {
    rest.(jobs := jobs + rest.jobs, events := events + rest.events)
  }

  lemma AfterAfter(jobs: seq<Job>, events: seq<Event>, jobs': seq<Job>, events': seq<Event>, rest: RunEnd)
    ensures After(jobs, events, After(jobs', events', rest)) == After(jobs + jobs', events + events', rest)
  {
    assert jobs + (jobs' + rest.jobs) == jobs + jobs' + rest.jobs;
    assert events + (events' + rest.events) == events + events' + rest.events;
  }

  /** Calls of `run` one after the other, as long as each returns normally. */
  function Session(c: ClientView, pool: string, scripts: seq<seq<Reply>>): RunEnd
    decreases scripts
  {
    if scripts == [] then RunEnd(Returned, c, [], [])
    else
      var first := RunFrom(c, pool, scripts[0]);
      if first.result != Returned then first
      else After(first.jobs, first.events, Session(first.client, pool, scripts[1..]))
  }

  /**
   The discipline of the calls: a completed work call is followed by a work call, a work call
   that asked to wait by a wait, a wait that timed out by a wait, a successful wait by a work
   call, and nothing follows a call that made `run` throw.
   */
  ghost predicate Follows(e: Event, next: Event) {
    match e
    case Work(c) => if next.Work? then Completes(c) else AsksToWait(c)
    case Waited(c) => c == if next.Work? then Success else Timeout
  }

  ghost predicate Chained(events: seq<Event>) {
    forall i :: 0 <= i < |events| - 1 ==> Follows(events[i], events[i + 1])
  }

  ghost predicate StartsAs(state: ClientState, events: seq<Event>) {
    events != [] ==> events[0].Work? == (state == GrabJob)
  }

  /** How the last call decides the end of `run` and the state that it leaves the client in. */
  ghost predicate EndsAs(result: RunResult, state: ClientState, last: Event) {
    match last
    case Work(c) =>
      && (result == Returned <==> Completes(c))
      && (result == Blocked <==> AsksToWait(c))
      && (result == Threw(false) <==> !Completes(c) && !AsksToWait(c))
      && state == if AsksToWait(c) then Poll else GrabJob
    case Waited(c) =>
      && (result == Returned <==> c == Timeout)
      && (result == Blocked <==> c == Success)
      && (result == Threw(false) <==> c != Timeout && c != Success)
      && state == if c == Success then GrabJob else Poll
  }

  lemma ChainedConcat(xs: seq<Event>, ys: seq<Event>)
    requires Chained(xs) && Chained(ys)
    requires xs != [] && ys != [] ==> Follows(xs[|xs| - 1], ys[0])
    ensures Chained(xs + ys)
  {
  }

  lemma {:induction false} RunDiscipline(c: ClientView, pool: string, script: seq<Reply>)
    requires c.state != Init
    ensures var e := RunFrom(c, pool, script);
            && e.client.state != Init && e.result != Crashed && e.result != Threw(true)
            && |e.events| <= |script|
            && Chained(e.events) && StartsAs(c.state, e.events)
            && (e.events == [] <==> script == []) && (script == [] ==> e.result == Blocked && e.client == c)
            && (e.events != [] ==> EndsAs(e.result, e.client.state, e.events[|e.events| - 1]))
    decreases script
  {
    if script != [] {
      var (c', verdict, jobs, event) := OneCall(c, pool, script[0]);
      if verdict == Wait {
        RunDiscipline(c', pool, script[1..]);
        ChainedConcat([event], RunFrom(c', pool, script[1..]).events);
      }
    }
  }

  /** The jobs that the work calls among the calls of a run handed to the callback. */
  ghost function HandedOut(script: seq<Reply>, events: seq<Event>): seq<JobRun>
    requires |events| <= |script|
  {
    if events == [] then []
    else (if events[0].Work? then script[0].jobs else []) + HandedOut(script[1..], events[1..])
  }

  lemma {:induction false} JobsOfConcat(pool: string, xs: seq<JobRun>, ys: seq<JobRun>)
    ensures JobsOf(pool, xs + ys) == JobsOf(pool, xs) + JobsOf(pool, ys)
  {
    if xs == [] {
      assert xs + ys == ys;
    } else {
      assert (xs + ys)[1..] == xs[1..] + ys;
      JobsOfConcat(pool, xs[1..], ys);
    }
  }

  lemma {:induction false} JobsOfAt(pool: string, jobs: seq<JobRun>, k: nat)
    requires k < |jobs|
    ensures |JobsOf(pool, jobs)| == |jobs|
    ensures var j := JobsOf(pool, jobs)[k]; j.pool == pool && j.fn == jobs[k].fn && j.exchange == jobs[k].exchange
  {
    if |jobs| > 1 {
      JobsOfAt(pool, jobs[1..], if k == 0 then 0 else k - 1);
    }
  }

  /** A run takes the replies in order and processes exactly the jobs that come with its work calls. */
  lemma {:induction false} RunConsumes(c: ClientView, pool: string, script: seq<Reply>)
    ensures var e := RunFrom(c, pool, script);
            && |e.events| <= |script| && (forall k :: 0 <= k < |e.events| ==> e.events[k].code == script[k].code)
            && (c.state != Init && e.result == Blocked ==> |e.events| == |script|)
            && e.jobs == JobsOf(pool, HandedOut(script, e.events))
    decreases script
  {
    if c.state != Init && script != [] {
      var (c', verdict, jobs, event) := OneCall(c, pool, script[0]);
      var handed := if event.Work? then script[0].jobs else [];
      if verdict == Wait {
        RunConsumes(c', pool, script[1..]);
        var rest := RunFrom(c', pool, script[1..]);
        assert ([event] + rest.events)[1..] == rest.events;
        JobsOfConcat(pool, handed, HandedOut(script[1..], rest.events));
      } else {
        assert [event][1..] == [] && handed + [] == handed;
      }
    }
  }

  /** The discipline holds across calls, and no call throws anything retriable. */
  lemma {:induction false} SessionDiscipline(c: ClientView, pool: string, scripts: seq<seq<Reply>>)
    requires c.state != Init
    ensures var e := Session(c, pool, scripts);
            && e.client.state != Init && e.result != Crashed && e.result != Threw(true)
            && Chained(e.events) && StartsAs(c.state, e.events)
            && (e.events == [] ==> e.client == c && e.result == if scripts == [] then Returned else Blocked)
            && (e.events != [] ==>
                  var last := e.events[|e.events| - 1];
                  || EndsAs(e.result, e.client.state, last)
                  || (e.result == Blocked && EndsAs(Returned, e.client.state, last)))
    decreases scripts
  {
    if scripts != [] {
      RunDiscipline(c, pool, scripts[0]);
      var first := RunFrom(c, pool, scripts[0]);
      if first.result == Returned {
        SessionDiscipline(first.client, pool, scripts[1..]);
        ChainedConcat(first.events, Session(first.client, pool, scripts[1..]).events);
      }
    }
  }

  /**
   Between two consecutive work calls, either the first completed a job and nothing happened in
   between, or it asked to wait and then came wait timeouts, possibly none, and one successful wait.
   */
  ghost predicate WaitsProperly(events: seq<Event>, i: nat, j: nat)
    requires i < j < |events| && events[i].Work?
  {
    || (Completes(events[i].code) && j == i + 1)
    || (&& AsksToWait(events[i].code) && i + 1 < j && events[j - 1] == Waited(Success)
        && forall k :: i < k < j - 1 ==> events[k] == Waited(Timeout))
  }

  lemma BetweenWorkCalls(events: seq<Event>, i: nat, j: nat)
    requires Chained(events) && i < j < |events| && events[i].Work? && events[j].Work?
    requires forall k :: i < k < j ==> !events[k].Work?
    ensures WaitsProperly(events, i, j)
  {
    assert Follows(events[i], events[i + 1]) && Follows(events[j - 1], events[j]);
    forall k | i < k < j - 1
      ensures events[k] == Waited(Timeout)
    {
      assert Follows(events[k], events[k + 1]);
    }
  }

  // ----- a session grows reply by reply

  /** A client fresh from its constructor. */
  const FRESH_CLIENT := ClientView(GrabJob, IDLE_NOTE, Ledger([], ZERO_GAUGES))

  /** The reply to the call that a run is blocked in. */
  function Extend(scripts: seq<seq<Reply>>, r: Reply): seq<seq<Reply>>
    requires scripts != []
  {
    scripts[..|scripts| - 1] + [scripts[|scripts| - 1] + [r]]
  }

  function Answered(e: RunEnd, pool: string, r: Reply): RunEnd
    requires e.client.state != Init
  {
    var (c', verdict, jobs, event) := OneCall(e.client, pool, r);
    RunEnd(match verdict case Done => Returned case Throw => Threw(false) case Wait => Blocked,
           c', e.jobs + jobs, e.events + [event])
  }

  lemma AnsweredAfter(jobs: seq<Job>, events: seq<Event>, e: RunEnd, pool: string, r: Reply)
    requires e.client.state != Init
    ensures After(jobs, events, Answered(e, pool, r)) == Answered(After(jobs, events, e), pool, r)
  {
    var (_, _, ran, event) := OneCall(e.client, pool, r);
    assert jobs + (e.jobs + ran) == jobs + e.jobs + ran;
    assert events + (e.events + [event]) == events + e.events + [event];
  }

  lemma {:induction false} RunReply(c: ClientView, pool: string, script: seq<Reply>, r: Reply)
    requires RunFrom(c, pool, script).result == Blocked
    ensures RunFrom(c, pool, script).client.state != Init
    ensures RunFrom(c, pool, script + [r]) == Answered(RunFrom(c, pool, script), pool, r)
    decreases script
  {
    if script == [] {
      RunOne(c, pool, r);
      assert script + [r] == [r];
    } else {
      assert (script + [r])[0] == script[0] && (script + [r])[1..] == script[1..] + [r];
      var (c', verdict, jobs, event) := OneCall(c, pool, script[0]);
      RunReply(c', pool, script[1..], r);
      AnsweredAfter(jobs, [event], RunFrom(c', pool, script[1..]), pool, r);
    }
  }

  lemma RunOne(c: ClientView, pool: string, r: Reply)
    requires c.state != Init
    ensures RunFrom(c, pool, [r]) == Answered(RunFrom(c, pool, []), pool, r)
  {
    var (c', verdict, jobs, event) := OneCall(c, pool, r);
    assert [r][1..] == [] && jobs + [] == jobs == [] + jobs && [event] + [] == [event] == [] + [event];
  }

  lemma {:induction false} SessionReply(c: ClientView, pool: string, scripts: seq<seq<Reply>>, r: Reply)
    requires scripts != [] && Session(c, pool, scripts).result == Blocked
    requires Session(c, pool, scripts[..|scripts| - 1]).result == Returned
    ensures Session(c, pool, scripts).client.state != Init
    ensures Session(c, pool, Extend(scripts, r)) == Answered(Session(c, pool, scripts), pool, r)
    decreases scripts
  {
    var first := RunFrom(c, pool, scripts[0]);
    if |scripts| == 1 {
      if first.result == Blocked {
        RunReply(c, pool, scripts[0], r);
        SessionOne(c, pool, scripts[0] + [r]);
        SessionOne(c, pool, scripts[0]);
        assert scripts == [scripts[0]] && Extend(scripts, r) == [scripts[0] + [r]];
      }
    } else {
      assert scripts[..|scripts| - 1][1..] == scripts[1..][..|scripts| - 2];
      assert Extend(scripts, r)[1..] == Extend(scripts[1..], r);
      assert Extend(scripts, r)[0] == scripts[0];
      SessionReply(first.client, pool, scripts[1..], r);
      AnsweredAfter(first.jobs, first.events, Session(first.client, pool, scripts[1..]), pool, r);
    }
  }

  lemma SessionOne(c: ClientView, pool: string, script: seq<Reply>)
    ensures Session(c, pool, [script]) == RunFrom(c, pool, script)
  {
    var e := RunFrom(c, pool, script);
    assert [script][1..] == [];
    assert e.jobs + [] == e.jobs && e.events + [] == e.events;
  }

  /** Another call of `run` begins. */
  lemma {:induction false} SessionNext(c: ClientView, pool: string, scripts: seq<seq<Reply>>)
    requires c.state != Init && Session(c, pool, scripts).result == Returned
    ensures Session(c, pool, scripts + [[]]) == Session(c, pool, scripts).(result := Blocked)
    decreases scripts
  {
    if scripts == [] {
      SessionOne(c, pool, []);
      assert scripts + [[]] == [[]];
    } else {
      RunDiscipline(c, pool, scripts[0]);
      assert (scripts + [[]])[1..] == scripts[1..] + [[]];
      SessionNext(RunFrom(c, pool, scripts[0]).client, pool, scripts[1..]);
    }
  }

  // ----- what a session does to the gauges

  /** The gauges are those of `idle`, in which the thread is idle, moved by the jobs it is at. */
  ghost predicate Balanced(l: Ledger, idle: Gauges, pool: string) {
    && (forall p :: Idle(l.gauges, p) == Idle(idle, p) - if p == pool then |l.active| else 0)
    && (forall p, fn :: Working(l.gauges, p, fn) ==
          Working(idle, p, fn) + if p == pool then multiset(l.active)[fn] else 0)
  }

  lemma StartBalances(l: Ledger, idle: Gauges, pool: string, fn: string)
    requires Balanced(l, idle, pool)
    ensures Balanced(StartWork(l, pool, fn), idle, pool)
  {
    var l' := StartWork(l, pool, fn);
    assert forall f :: multiset(l'.active)[f] == multiset(l.active)[f] + if f == fn then 1 else 0;
  }

  lemma CompleteBalances(l: Ledger, idle: Gauges, pool: string)
    requires Balanced(l, idle, pool)
    ensures Balanced(CompleteWork(l, pool), idle, pool)
  {
    if l.active != [] {
      assert l.active == [l.active[0]] + l.active[1..];
    }
  }

  lemma {:induction false} JobsBalance(l: Ledger, idle: Gauges, pool: string, jobs: seq<JobRun>)
    requires Balanced(l, idle, pool)
    ensures Balanced(RunJobs(l, pool, jobs), idle, pool)
    ensures |RunJobs(l, pool, jobs).active| == |l.active| + |jobs|
    decreases jobs
  {
    if jobs != [] {
      StartBalances(l, idle, pool, jobs[0].fn);
      JobsBalance(StartWork(l, pool, jobs[0].fn), idle, pool, jobs[1..]);
    }
  }

  lemma {:induction false} RunBalances(c: ClientView, idle: Gauges, pool: string, script: seq<Reply>)
    requires Balanced(c.ledger, idle, pool)
    ensures Balanced(RunFrom(c, pool, script).client.ledger, idle, pool)
    decreases script
  {
    if c.state != Init && script != [] {
      JobsBalance(c.ledger, idle, pool, script[0].jobs);
      CompleteBalances(RunJobs(c.ledger, pool, script[0].jobs), idle, pool);
      var (c', verdict, jobs, event) := OneCall(c, pool, script[0]);
      if verdict == Wait {
        RunBalances(c', idle, pool, script[1..]);
      }
    }
  }

  /** Whatever the library replies, the gauges differ from idleness by the stack and no more. */
  lemma {:induction false} SessionBalances(c: ClientView, idle: Gauges, pool: string, scripts: seq<seq<Reply>>)
    requires Balanced(c.ledger, idle, pool)
    ensures Balanced(Session(c, pool, scripts).client.ledger, idle, pool)
    decreases scripts
  {
    if scripts != [] {
      RunBalances(c, idle, pool, scripts[0]);
      var first := RunFrom(c, pool, scripts[0]);
      if first.result == Returned {
        SessionBalances(first.client, idle, pool, scripts[1..]);
      }
    }
  }

  /**
   Ending the thread takes its idle unit out of the gauges exactly when its stack is empty. If it
   is not, the unit stays behind for good, with the rest of the stack.
   */
  lemma EndBalances(l: Ledger, idle: Gauges, pool: string)
    requires Balanced(l, idle, pool)
    ensures Idle(EndThread(l, pool).gauges, pool) + |EndThread(l, pool).active| == Idle(idle, pool) - 1 <==>
            l.active == []
    ensures l.active != [] ==> Balanced(EndThread(l, pool), idle, pool)
  {
    if l.active != [] {
      CompleteBalances(l, idle, pool);
      assert EndThread(l, pool) == CompleteWork(l, pool);
    }
  }

  /**
   An idle thread whose work call runs a job and then reports a lost connection: `run` throws
   with the job on the stack, and the thread's end takes that job out of the gauges and leaves
   the thread itself in.
   */
  lemma LostConnectionDrifts(c: ClientView, pool: string, job: JobRun)
    requires c.state == GrabJob && c.ledger.active == []
    ensures var e := RunFrom(c, pool, [Reply([job], NotConnected)]);
            var end := EndThread(e.client.ledger, pool);
            && e.result == Threw(false) && e.client.ledger.active == [job.fn]
            && (forall p :: Idle(end.gauges, p) == Idle(c.ledger.gauges, p))
            && (forall p, fn :: Working(end.gauges, p, fn) == Working(c.ledger.gauges, p, fn))
            && forall p :: Idle(EndThread(c.ledger, pool).gauges, p) ==
                 Idle(c.ledger.gauges, p) - if p == pool then 1 else 0
  {
    assert RunJobs(c.ledger, pool, [job]) == RunJobs(StartWork(c.ledger, pool, job.fn), pool, []);
  }

  /** A work call that ran jobs ran one, and completed it. */
  ghost predicate WellBehaved(script: seq<Reply>) {
    forall r :: r in script ==> |r.jobs| == 0 || (|r.jobs| == 1 && Completes(r.code))
  }

  /** With a well-behaved library every call of `run` leaves the thread idle. */
  lemma {:induction false} RunTidy(c: ClientView, pool: string, script: seq<Reply>)
    requires c.ledger.active == [] && WellBehaved(script)
    ensures RunFrom(c, pool, script).client.ledger.active == []
    decreases script
  {
    if c.state != Init && script != [] {
      assert script[0] in script;
      var jobs := script[0].jobs;
      if |jobs| == 1 {
        assert RunJobs(c.ledger, pool, jobs) == RunJobs(StartWork(c.ledger, pool, jobs[0].fn), pool, []);
      }
      var (c', verdict, _, _) := OneCall(c, pool, script[0]);
      if verdict == Wait {
        RunTidy(c', pool, script[1..]);
      }
    }
  }

  class GearmanClient {
    const registry: ThreadRegistry
    const tid: Tid
    const metrics: MetricProxyPoolWrapper
    var state: ClientState

    /** The note is kept in the registry, where the client's thread must be registered. */
    function View(): ClientView
      reads this, registry, metrics, metrics.proxy
      requires tid in registry.threads
    {
      ClientView(state, registry.threads[tid].state, metrics.View())
    }

    constructor (registry: ThreadRegistry, tid: Tid, metrics: MetricProxyPoolWrapper)
      modifies metrics.proxy`gauges
      ensures this.registry == registry && this.tid == tid && this.metrics == metrics && state == GrabJob
      ensures metrics.View() == old(metrics.View()).(gauges := AddIdle(old(metrics.View()).gauges, metrics.pool, 1))
    {
      this.registry, this.tid, this.metrics := registry, tid, metrics;
      state := Init;
      new;
      metrics.ReportThreadStarted();
      state := GrabJob;
    }

    method Destroy()
      modifies metrics, metrics.proxy`gauges
      ensures metrics.View() == EndThread(old(metrics.View()), metrics.pool)
    {
      metrics.ReportThreadEnded();
    }

    /**
     One job. Every wrong reply jumps to the error exit, which still cleans up; `text` is the
     string that the caller passed in, with the endpoint's answer appended on success.
     */
    method ProcessJob(job: JobRun, prior: string) returns (code: JobCode, text: string, cleanups: nat)
      requires tid in registry.threads
      modifies registry, metrics, metrics.proxy
      ensures registry.View() == SetState(old(registry.View()), tid, job.note).value
      ensures metrics.View() == StartWork(old(metrics.View()), metrics.pool, job.fn)
      ensures metrics.proxy.counters ==
              CountJob(old(metrics.proxy.counters), Job(metrics.pool, job.fn, job.exchange))
      ensures Counted(old(metrics.proxy.counters), metrics.proxy.counters, metrics.pool, job.fn, job.exchange)
      ensures cleanups == 1
      ensures if Answers(job.exchange)
              then code == FromEndpoint(job.exchange.body.code) && text == prior + job.exchange.body.text
              else code == FailedJob && text == prior
    {
      JobCounted(metrics.proxy.counters, Job(metrics.pool, job.fn, job.exchange));
      var fn, x := job.fn, job.exchange;
      var noted := registry.SetThreadState(tid, job.note);
      assert noted;
      metrics.ReportThreadStartingWork(fn);
      text, cleanups := prior, 0;
      code := FromEndpoint(0);
      var failed := true;
      label attempt: {
        if !x.handle {
          break attempt;
        }
        if !x.setup {
          break attempt;
        }
        if x.perform != PerformOk {
          if x.perform == AbortedByCallback {
            metrics.proxy.ReportJobTimeout(metrics.pool, fn);
          }
          break attempt;
        }
        if x.status != 200 {
          metrics.proxy.ReportHttpJobError(metrics.pool, fn, x.status % UINT16_MODULUS);
          break attempt;
        }
        if x.body.Unparsable? {
          break attempt;
        }
        if x.body.Malformed? {
          break attempt;
        }
        code := FromEndpoint(x.body.code);
        text := text + x.body.text;
        metrics.proxy.ReportJobSuccess(metrics.pool, fn);
        failed := false;
      }
      if failed {
        code := FailedJob;
        metrics.proxy.ReportJobError(metrics.pool, fn);
      }
      cleanups := cleanups + 1;
    }

    /** The jobs that the library hands to the callback during one work call. */
    method ProcessJobs(jobs: seq<JobRun>)
      requires tid in registry.threads
      modifies registry, metrics, metrics.proxy
      ensures registry.View() ==
              SetState(old(registry.View()), tid, LastNote(old(registry.threads[tid].state), jobs)).value
      ensures metrics.View() == RunJobs(old(metrics.View()), metrics.pool, jobs)
      ensures metrics.proxy.counters == CountJobs(old(metrics.proxy.counters), JobsOf(metrics.pool, jobs))
      decreases jobs
    {
      if jobs != [] {
        ghost var before, note := registry.View(), registry.threads[tid].state;
        var _, _, _ := ProcessJob(jobs[0], "");
        NoteAgain(before, tid, jobs[0].note, LastNote(jobs[0].note, jobs[1..]));
        ProcessJobs(jobs[1..]);
        assert LastNote(note, jobs) == LastNote(jobs[0].note, jobs[1..]);
      }
    }

    /** One turn of the loop in `run`. */
    method Call(reply: Reply) returns (verdict: Verdict)
      requires state != Init && tid in registry.threads
      modifies this, registry, metrics, metrics.proxy
      ensures registry.View() ==
              SetState(old(registry.View()), tid, OneCall(old(View()), metrics.pool, reply).0.note).value
      ensures View() == OneCall(old(View()), metrics.pool, reply).0
      ensures verdict == OneCall(old(View()), metrics.pool, reply).1
      ensures metrics.proxy.counters ==
              CountJobs(old(metrics.proxy.counters), OneCall(old(View()), metrics.pool, reply).2)
    {
      if state == GrabJob {
        ProcessJobs(reply.jobs);
        verdict := AfterWork(reply.code);
        if verdict == Wait {
          state := Poll;
        } else if verdict == Done {
          metrics.ReportThreadWorkComplete();
          var noted := registry.SetThreadState(tid, IDLE_NOTE);
          assert noted;
        }
      } else {
        verdict := AfterWait(reply.code);
        if verdict == Wait {
          state := GrabJob;
        }
      }
    }

    method Run(script: seq<Reply>) returns (result: RunResult, ghost end: RunEnd)
      requires tid in registry.threads
      modifies this, registry, metrics, metrics.proxy
      ensures registry.View() == SetState(old(registry.View()), tid, end.client.note).value
      ensures end == RunFrom(old(View()), metrics.pool, script)
      ensures result == end.result && View() == end.client
      ensures old(state) == Init ==> result == Crashed
      ensures old(state) != Init && script != [] ==>
                end.events != [] && EndsAs(result, state, end.events[|end.events| - 1])
      ensures metrics.proxy.counters == CountJobs(old(metrics.proxy.counters), end.jobs)
    {
      ghost var before := View();
      result, end := Loop(script);
      if before.state != Init {
        RunDiscipline(before, metrics.pool, script);
      }
    }

    /** The loop over the library's replies. */
    method Loop(script: seq<Reply>) returns (result: RunResult, ghost end: RunEnd)
      requires tid in registry.threads
      modifies this, registry, metrics, metrics.proxy
      ensures registry.View() == SetState(old(registry.View()), tid, end.client.note).value
      ensures end == RunFrom(old(View()), metrics.pool, script)
      ensures result == end.result && View() == end.client
      ensures metrics.proxy.counters == CountJobs(old(metrics.proxy.counters), end.jobs)
    {
      end := RunFrom(View(), metrics.pool, script);
      ghost var jobs: seq<Job>, events: seq<Event> := [], [];
      var used := 0;
      while true
        invariant used <= |script| && tid in registry.threads
        invariant registry.View() == SetState(old(registry.View()), tid, View().note).value
        invariant end == After(jobs, events, RunFrom(View(), metrics.pool, script[used..]))
        invariant metrics.proxy.counters == CountJobs(old(metrics.proxy.counters), jobs)
        decreases |script| - used
      {
        assert jobs + [] == jobs;
        if state == Init {
          return Crashed, end;
        }
        if used == |script| {
          return Blocked, end;
        }
        ghost var before := View();
        ghost var (_, _, ran, event) := OneCall(before, metrics.pool, script[used]);
        assert script[used..][1..] == script[used + 1..];
        CountJobsConcat(old(metrics.proxy.counters), jobs, ran);
        var verdict := Call(script[used]);
        NoteAgain(old(registry.View()), tid, before.note, View().note);
        used := used + 1;
        if verdict == Done {
          return Returned, end;
        }
        if verdict == Throw {
          return Threw(false), end;
        }
        AfterAfter(jobs, events, ran, [event], RunFrom(View(), metrics.pool, script[used..]));
        jobs, events := jobs + ran, events + [event];
      }
    }
  }

  /** Only the last note counts. */
  lemma NoteAgain(r: RegistryState, t: Tid, note: string, note': string)
    requires t in r.threads
    ensures var r' := SetState(r, t, note).value; t in r'.threads && SetState(r', t, note') == SetState(r, t, note')
  {
    var d := r.threads[t];
    assert r.threads[t := d.(state := note)][t := d.(state := note')] == r.threads[t := d.(state := note')];
  }

  lemma {:induction false} CountJobsConcat(c: Counters, xs: seq<Job>, ys: seq<Job>)
    ensures CountJobs(c, xs + ys) == CountJobs(CountJobs(c, xs), ys)
    decreases xs
  {
    if xs == [] {
      assert xs + ys == ys;
    } else {
      assert (xs + ys)[1..] == xs[1..] + ys;
      CountJobsConcat(CountJob(c, xs[0]), xs[1..], ys);
    }
  }
}
