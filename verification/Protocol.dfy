/**
 The whole control plane as one transition system. Its state is everything that the main thread
 and the worker threads share, together with where each thread stands in its code; its actions
 are the atomic steps of the threads. Registry methods are single steps because they hold the
 registry's mutex; everything else that two threads can touch is taken one access at a time.
 Actions carry all nondeterminism: schedules, loaded configurations, library replies, thread
 identifiers, spurious wakeups. A process that dies simply takes no further action.
 */
module Protocol {
  import opened Common
  import opened Registry
  import opened Configs
  import opened Metrics
  import opened Jobs
  import opened Client

  // ----- worker threads

  /** Where a worker stands, from the thread's start to its end. */
  datatype Pc =
    // gearman_thread_delegate, under the start mutex from Building to Signalled
    | Spawned | Building | Built | Registered | Ready | Signalled | Unlocked
    // ThreadLoop::run
    | CheckForce | CheckMark | Running
    // GearmanClient::run, with the callback's reports split at each gauge and counter
    | InWork | JobNoted(fn: string) | JobActive(fn: string) | JobIdled(fn: string)
    | InJob(fn: string) | JobFailing(fn: string)
    | Finish | FinishActive | FinishIdled | NoteIdle
    // ~ThreadLoop, then ~GearmanClient
    | Exiting | Leaving | LeaveActive | LeaveIdled | Ended(clean: bool)

  /**
   `active` is the thread's stack of functions at work, top first, and `note` what it last wrote
   into its record. Read by no thread: `ran` lists the jobs of the current work call, `calls` the
   library calls made, `scripts` the replies by call of the client's `run`, and `epoch` dates the
   thread's start.
   */
  datatype Worker = Worker(pool: string, data: WorkData, pc: Pc, client: ClientState, active: seq<string>,
                           note: string, ran: seq<JobRun>, calls: seq<Event>, scripts: seq<seq<Reply>>,
                           epoch: nat)

  predicate PreRegistered(pc: Pc) {
    pc.Spawned? || pc.Building? || pc.Built?
  }

  predicate Unsignalled(pc: Pc) {
    PreRegistered(pc) || pc.Registered? || pc.Ready?
  }

  predicate HoldsLock(pc: Pc) {
    (Unsignalled(pc) && !pc.Spawned?) || pc.Signalled?
  }

  predicate Unregistered(pc: Pc) {
    pc.Leaving? || pc.LeaveActive? || pc.LeaveIdled? || pc.Ended?
  }

  /** Between registration and unregistration. */
  predicate InRegistry(pc: Pc) {
    !PreRegistered(pc) && !Unregistered(pc)
  }

  /** Inside a call of the client's `run`, before it reports a completed job. */
  predicate InRun(pc: Pc) {
    || pc.Running? || pc.InWork? || pc.JobNoted? || pc.JobActive? || pc.JobIdled?
    || pc.InJob? || pc.JobFailing?
  }

  datatype Move =
    | Proceed
    | StartJob(fn: string, text: string)
    | JobEnds(exchange: Exchange)
    | WorkReturns(code: Code)
    | WaitReturns(code: Code)

  predicate MoveEnabled(w: Worker, move: Move) {
    match move
    case Proceed => !w.pc.InWork? && !w.pc.InJob? && !(w.pc.Running? && w.client == Poll)
    case StartJob(_, _) => w.pc.InWork?
    case JobEnds(_) => w.pc.InJob?
    case WorkReturns(_) => w.pc.InWork?
    case WaitReturns(_) => w.pc.Running? && w.client == Poll
  }

  /** A reply ends up in the script of the call of `run` that it belongs to. */
  function Heard(scripts: seq<seq<Reply>>, r: Reply): seq<seq<Reply>> {
    if scripts == [] then [[r]] else Extend(scripts, r)
  }

  /** The thread's own part of a step; `force` and `marked` are what its checks would read. */
  function NextWorker(w: Worker, move: Move, force: bool, marked: bool): Worker
    requires MoveEnabled(w, move)
  {
    match move
    case StartJob(fn, text) => w.(pc := JobNoted(fn), note := text)
    case JobEnds(x) =>
      w.(pc := if OutcomeOf(x).Succeeded? then InWork else JobFailing(w.pc.fn),
         ran := w.ran + [JobRun(w.pc.fn, w.note, x)])
    case WorkReturns(code) =>
      var heard := w.(scripts := Heard(w.scripts, Reply(w.ran, code)), ran := [],
                      calls := w.calls + [Event.Work(code)]);
      (match AfterWork(code)
       case Wait => heard.(pc := Running, client := Poll)
       case Done => heard.(pc := Finish)
       case Throw => heard.(pc := Exiting))
    case WaitReturns(code) =>
      var heard := w.(scripts := Heard(w.scripts, Reply([], code)), calls := w.calls + [Waited(code)]);
      (match AfterWait(code)
       case Wait => heard.(client := GrabJob)
       case Done => heard.(pc := CheckForce)
       case Throw => heard.(pc := Exiting))
    case Proceed =>
      match w.pc
      case Spawned => w.(pc := Building)
      case Building => w.(pc := Built, client := GrabJob)
      case Built => w.(pc := Registered, note := STARTING_NOTE)
      case Registered => w.(pc := Ready, note := IDLE_NOTE)
      case Ready => w.(pc := Signalled)
      case Signalled => w.(pc := Unlocked)
      case Unlocked => w.(pc := CheckForce)
      case CheckForce => w.(pc := if force then Exiting else CheckMark)
      case CheckMark => if marked then w.(pc := Exiting) else w.(pc := Running, scripts := w.scripts + [[]])
      case Running => w.(pc := if w.client == GrabJob then InWork else Exiting)
      case JobNoted(fn) => w.(pc := JobActive(fn))
      case JobActive(fn) => w.(pc := JobIdled(fn))
      case JobIdled(fn) => w.(pc := InJob(fn), active := [fn] + w.active)
      case JobFailing(_) => w.(pc := InWork)
      case Finish => w.(pc := if w.active == [] then NoteIdle else FinishActive)
      case FinishActive => w.(pc := FinishIdled)
      case FinishIdled => w.(pc := NoteIdle, active := if w.active == [] then [] else w.active[1..])
      case NoteIdle => w.(pc := CheckForce, note := IDLE_NOTE)
      case Exiting => w.(pc := Leaving)
      case Leaving => w.(pc := if w.active == [] then Ended(true) else LeaveActive)
      case LeaveActive => w.(pc := LeaveIdled)
      case LeaveIdled => w.(pc := Ended(false), active := if w.active == [] then [] else w.active[1..])
      case Ended(_) => w
      case InWork | InJob(_) => w
  }

  /** The registry's part; `None` is a failed assertion. */
  function NextRegistry(r: RegistryState, t: Tid, w: Worker, move: Move): Option<RegistryState> {
    match w.pc
    case Built => Register(r, w.pool, t)
    case Registered => SetState(r, t, IDLE_NOTE)
    case CheckMark => if t in r.threads then Some(r) else None
    case InWork => if move.StartJob? then SetState(r, t, move.text) else Some(r)
    case NoteIdle => SetState(r, t, IDLE_NOTE)
    case Exiting => Unregister(r, w.pool, t)
    case _ => Some(r)
  }

  /** The gauges' part: every report is one increment or decrement at a time. */
  function NextGauges(g: Gauges, w: Worker): Gauges {
    match w.pc
    case Building => AddIdle(g, w.pool, 1)
    case JobNoted(fn) => AddWorking(g, w.pool, fn, 1)
    case JobActive(_) => AddIdle(g, w.pool, -1)
    case Finish => if w.active == [] then g else AddWorking(g, w.pool, w.active[0], -1)
    case FinishActive => AddIdle(g, w.pool, 1)
    case Leaving => if w.active == [] then AddIdle(g, w.pool, -1) else AddWorking(g, w.pool, w.active[0], -1)
    case LeaveActive => AddIdle(g, w.pool, 1)
    case _ => g
  }

  /** The counters' part: the special report of a failed job first, then the common one. */
  function NextCounters(c: Counters, w: Worker, move: Move): Counters {
    if w.pc.JobFailing? then CountError(c, w.pool, w.pc.fn)
    else if w.pc.InJob? && move.JobEnds? then
      match OutcomeOf(move.exchange)
      case Succeeded(_, _) => CountSuccess(c, w.pool, w.pc.fn)
      case TimedOut => CountTimeout(c, w.pool, w.pc.fn)
      case HttpError(status) => CountHttp(c, w.pool, w.pc.fn, status)
      case Failed => c
    else c
  }

  // ----- the main thread

  datatype Phase = AtTop | Passing | Clearing | Finished | Aborted | Released

  /** Where `inform` stands; `left` is the start loop's counter. */
  datatype Inform =
    | ReadCount
    | Stopping(count: uint32)
    | TakeLock(left: nat) | ResetWakeup(left: nat) | Spawning(left: nat)
    | CheckWakeup(left: nat, tid: Tid) | Asleep(left: nat, tid: Tid) | Woken(left: nat, tid: Tid)
    | Detach(left: nat) | DropLock(left: nat)

  /**
   `config` is the main loop's own configuration and `goal` the one that the directives left to
   process come from; a shutdown has no goal but the empty one. `clears` and `news` are what is
   left of the two loops of `supersede`; the first of them is being informed.
   */
  datatype MainThread = MainThread(phase: Phase, config: Config, goal: Config,
                                   clears: seq<Directive>, news: seq<Directive>, inform: Inform)

  predicate Informing(m: MainThread) {
    m.clears != [] || m.news != []
  }

  function Current(m: MainThread): Directive
    requires Informing(m)
  {
    if m.clears != [] then m.clears[0] else m.news[0]
  }

  /** The current directive is done with. */
  function Advance(m: MainThread): MainThread
    requires Informing(m)
  {
    if m.clears != [] then m.(clears := m.clears[1..], inform := ReadCount)
    else m.(news := m.news[1..], inform := ReadCount)
  }

  /** Main has spawned a thread and has not yet seen it signal. */
  predicate Waiting(i: Inform) {
    i.CheckWakeup? || i.Asleep? || i.Woken?
  }

  predicate MainHolds(i: Inform) {
    i.ResetWakeup? || i.Spawning? || i.CheckWakeup? || i.Detach? || i.DropLock?
  }

  // ----- the system

  datatype Holder = Free | ByMain | ByWorker(tid: Tid)

  datatype Wakeup = WakeInit | WakeSuccess

  /**
   What the run so far leaves on record, read by no thread: changes of configuration, threads
   spawned and registered, the largest worker count directed at each pool, the threads that
   ended in the middle of a job, how many jobs of each pool and function were begun, and the
   jobs that have ended, in order.
   */
  datatype History = History(epoch: nat, spawns: nat, registrations: nat, caps: map<string, nat>,
                             phantoms: seq<Worker>, begun: map<(string, string), int>,
                             ended: seq<Job>)

  datatype Sys = Sys(reg: RegistryState, workers: map<Tid, Worker>, main: MainThread,
                     mutex: Holder, wakeup: Wakeup, force: bool, gauges: Gauges,
                     counters: Counters, hist: History, failed: bool)

  ghost predicate IsStart(s: Sys) {
    s == Sys(EMPTY_REGISTRY, map[], MainThread(AtTop, EMPTY_CONFIG, EMPTY_CONFIG, [], [], ReadCount),
             Free, WakeInit, false, ZERO_GAUGES, ZERO_COUNTERS,
             History(0, 0, 0, map[], [], map[], []), false)
  }

  function Cap(h: History, pool: string): nat {
    if pool in h.caps then h.caps[pool] else 0
  }

  datatype Action =
    // MainLoop::run and doShutdown
    | BeginPass(next: Config, clears: seq<Directive>, news: seq<Directive>) | EndPass
    | BeginShutdown(stops: seq<Directive>) | EndShutdown
    | LoadFails | ReleaseRegistry
    // ThreadPoolWatcher::inform
    | Go | SendStop(marks: set<Tid>) | Spawn(newcomer: Tid) | SpawnFails | WakeSpuriously
    // a worker
    | Act(actor: Tid, move: Move)

  ghost predicate InformEnabled(s: Sys) {
    && Informing(s.main) && s.main.phase in {Passing, Clearing}
    && match s.main.inform
       case Stopping(_) => false
       case Spawning(_) => false
       case Asleep(_, _) => false
       case TakeLock(left) => left == 0 || s.mutex == Free
       case Woken(_, _) => s.mutex == Free
       case _ => true
  }

  ghost predicate WorkerEnabled(s: Sys, t: Tid, move: Move) {
    && t in s.workers && MoveEnabled(s.workers[t], move)
    && (s.workers[t].pc.Spawned? ==> s.mutex == Free)
  }

  ghost predicate Enabled(s: Sys, a: Action) {
    && !s.failed
    && match a
       case BeginPass(next, clears, news) => s.main.phase == AtTop && IsSupersede(s.main.config, next, clears, news)
       case EndPass => s.main.phase == Passing && !Informing(s.main)
       case BeginShutdown(stops) =>
         s.main.phase == AtTop && IsClearing(s.main.config, s.main.config.pools.Keys, stops)
       case EndShutdown => s.main.phase == Clearing && !Informing(s.main)
       case LoadFails => s.main.phase == AtTop
       case ReleaseRegistry => s.main.phase in {Finished, Aborted}
       case Go => InformEnabled(s)
       case SendStop(marks) =>
         && Informing(s.main) && s.main.inform.Stopping?
         && ShutdownChoice(s.reg, Current(s.main).pool, s.main.inform.count, marks)
       case Spawn(t) => Informing(s.main) && s.main.inform.Spawning? && t !in s.workers
       case SpawnFails => Informing(s.main) && s.main.inform.Spawning?
       case WakeSpuriously => s.main.inform.Asleep?
       case Act(t, move) => WorkerEnabled(s, t, move)
  }

  function Fail(s: Sys): Sys {
    s.(failed := true)
  }

  /** Dropping the last reference runs the registry's destructor and its assertion. */
  function AfterRelease(s: Sys): Sys {
    if s.main.phase == Released && s.workers == map[] && s.reg.threads != map[] then Fail(s) else s
  }

  function ReadPool(s: Sys): Sys
    requires Informing(s.main)
  {
    var d := Current(s.main);
    var count := PoolCount(s.reg, d.pool);
    var cap := Cap(s.hist, d.pool);
    s.(reg := Touch(s.reg, d.pool),
       hist := s.hist.(caps := s.hist.caps[d.pool := if cap < d.count then d.count else cap]),
       main := if count > d.count then s.main.(inform := Stopping(count - d.count))
               else if count < d.count then s.main.(inform := TakeLock(d.count - count))
               else Advance(s.main))
  }

  function InformStep(s: Sys): Sys
    requires Informing(s.main)
  {
    match s.main.inform
    case ReadCount => ReadPool(s)
    case TakeLock(left) =>
      if left == 0 then s.(main := Advance(s.main))
      else s.(mutex := ByMain, main := s.main.(inform := ResetWakeup(left)))
    case ResetWakeup(left) => s.(wakeup := WakeInit, main := s.main.(inform := Spawning(left)))
    case CheckWakeup(left, t) =>
      if s.wakeup != WakeInit then s.(main := s.main.(inform := Detach(left)))
      else s.(mutex := Free, main := s.main.(inform := Asleep(left, t)))
    case Woken(left, t) => s.(mutex := ByMain, main := s.main.(inform := CheckWakeup(left, t)))
    case Detach(left) => s.(main := s.main.(inform := DropLock(left)))
    case DropLock(left) => s.(mutex := Free, main := s.main.(inform := TakeLock(if left == 0 then 0 else left - 1)))
    case _ => s
  }

  /** The walk over the pool asserts that every thread it meets has a record. */
  function StopPool(s: Sys, marks: set<Tid>): Sys
    requires Informing(s.main)
  {
    var pool := Current(s.main).pool;
    if Members(s.reg, pool) <= s.reg.threads.Keys then
      s.(reg := Mark(Touch(s.reg, pool), marks), main := Advance(s.main))
    else Fail(s)
  }

  function NewWorker(s: Sys): Worker
    requires Informing(s.main)
  {
    var d := Current(s.main);
    Worker(d.pool, d.data, Spawned, ClientState.Init, [], "", [], [], [], s.hist.epoch)
  }

  function NextMutex(s: Sys, t: Tid, pc: Pc): Holder {
    if pc.Spawned? then ByWorker(t) else if pc.Signalled? then Free else s.mutex
  }

  /** A notification wakes main if it sleeps and is lost otherwise. */
  function Notified(i: Inform): Inform {
    if i.Asleep? then Woken(i.left, i.tid) else i
  }

  function Marked(s: Sys, t: Tid): bool {
    t in s.reg.threads && s.reg.threads[t].shouldShutdown
  }

  function NextHistory(h: History, w: Worker, move: Move): History {
    if w.pc.Built? then h.(registrations := h.registrations + 1)
    else if w.pc.JobIdled? then h.(begun := Bump(h.begun, (w.pool, w.pc.fn)))
    else if w.pc.InJob? && move.JobEnds? then h.(ended := h.ended + [Job(w.pool, w.pc.fn, move.exchange)])
    else h
  }

  function WorkerStep(s: Sys, t: Tid, move: Move): Sys
    requires t in s.workers && MoveEnabled(s.workers[t], move)
  {
    var w := s.workers[t];
    var r := NextRegistry(s.reg, t, w, move);
    if r == None then Fail(s)
    else if w.pc.Ended? then
      AfterRelease(s.(workers := s.workers - {t},
                      hist := s.hist.(phantoms := s.hist.phantoms + if w.pc.clean then [] else [w])))
    else
      Install(s, t, r.value, NextWorker(w, move, s.force, Marked(s, t)), NextGauges(s.gauges, w),
              NextCounters(s.counters, w, move), NextHistory(s.hist, w, move))
  }

  /** A worker's step with its parts in place, and what it does to the start handshake. */
  function Install(s: Sys, t: Tid, reg: RegistryState, worker: Worker, gauges: Gauges, counters: Counters,
                   hist: History): Sys
    requires t in s.workers
  {
    var pc := s.workers[t].pc;
    s.(reg := reg, workers := s.workers[t := worker], gauges := gauges, counters := counters, hist := hist,
       mutex := NextMutex(s, t, pc),
       wakeup := if pc.Ready? then WakeSuccess else s.wakeup,
       main := if pc.Unlocked? then s.main.(inform := Notified(s.main.inform)) else s.main)
  }

  ghost function Apply(s: Sys, a: Action): Sys
    requires Enabled(s, a)
  {
    match a
    case BeginPass(next, clears, news) =>
      s.(main := s.main.(phase := Passing, goal := next, clears := clears, news := news),
         hist := if next == s.main.config then s.hist else s.hist.(epoch := s.hist.epoch + 1))
    case EndPass => s.(main := s.main.(phase := AtTop, config := s.main.goal))
    case BeginShutdown(stops) =>
      s.(force := true, hist := s.hist.(epoch := s.hist.epoch + 1),
         main := s.main.(phase := Clearing, goal := EMPTY_CONFIG, clears := stops, news := []))
    case EndShutdown => s.(main := s.main.(phase := Finished))
    case LoadFails => s.(main := s.main.(phase := Aborted))
    case ReleaseRegistry => AfterRelease(s.(main := s.main.(phase := Released)))
    case Go => InformStep(s)
    case SendStop(marks) => StopPool(s, marks)
    case Spawn(t) =>
      s.(workers := s.workers[t := NewWorker(s)], hist := s.hist.(spawns := s.hist.spawns + 1),
         main := s.main.(inform := CheckWakeup(s.main.inform.left, t)))
    case SpawnFails =>
      s.(mutex := Free, main := s.main.(phase := Aborted, clears := [], news := [], inform := ReadCount))
    case WakeSpuriously => s.(main := s.main.(inform := Woken(s.main.inform.left, s.main.inform.tid)))
    case Act(t, move) => WorkerStep(s, t, move)
  }

  ghost predicate StepAt(states: seq<Sys>, actions: seq<Action>, i: nat)
    requires |states| == |actions| + 1 && i < |actions|
  {
    Enabled(states[i], actions[i]) && states[i + 1] == Apply(states[i], actions[i])
  }

  /** A run: the states passed through and the actions between them. */
  ghost predicate IsRun(states: seq<Sys>, actions: seq<Action>) {
    && |states| == |actions| + 1
    && forall i: nat :: i < |actions| ==> StepAt(states, actions, i)
  }
}
