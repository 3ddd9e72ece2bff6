/**
 The main thread's own code, written out: the watcher's `inform` with its start loop, the pass
 over a new configuration, and shutdown. What the workers do meanwhile is one method, `Others`,
 that lets any of them leave; main calls it around each of its own accesses to the registry, so
 before and after every count, every stop, every start and every directive.
 */
module MainLoop {
  import opened Common
  import opened Registry
  import opened Configs
  import opened Protocol
  import opened Handshake

  /** All that main can observe of workers taking steps: threads leave, the rest keep their marks. */
  ghost predicate Rely(r: RegistryState, r': RegistryState) {
    && Agree(r') && r'.threads.Keys <= r.threads.Keys
    && forall t :: t in r'.threads ==>
         r'.threads[t].pool == r.threads[t].pool && r'.threads[t].shouldShutdown == r.threads[t].shouldShutdown
  }

  /** Every step of a registered worker in the transition system is such an observation. */
  lemma MovesRely(r: RegistryState, r': RegistryState, t: Tid, w: Worker)
    requires Agree(r) && RegistryMoves(r, r', t, w) && !w.pc.Built?
    ensures Rely(r, r')
  {
  }

  lemma RelyMembers(r: RegistryState, r': RegistryState, pool: string)
    requires Agree(r) && Rely(r, r')
    ensures Members(r', pool) <= Members(r, pool) && Unmarked(r', pool) <= Unmarked(r, pool)
    ensures |Members(r', pool)| <= |Members(r, pool)| && |Unmarked(r', pool)| <= |Unmarked(r, pool)|
  {
    forall t | t in Members(r', pool)
      ensures t in Members(r, pool)
    {
      MembersAgree(r', pool, t);
      MembersAgree(r, pool, t);
    }
    SubsetCardinality(Members(r', pool), Members(r, pool));
    SubsetCardinality(Unmarked(r', pool), Unmarked(r, pool));
  }

  // ----- the registry with what has happened to it

  /**
   `started` records what the registered threads were started with; `starts` and `exits` count,
   by pool, the threads ever started and those that have left again.
   */
  datatype Crew = Crew(reg: RegistryState, started: map<Tid, WorkData>,
                       starts: multiset<string>, exits: multiset<string>)

  const EMPTY_CREW := Crew(EMPTY_REGISTRY, map[], multiset{}, multiset{})

  ghost function CrewSize(c: Crew, pool: string): nat {
    |Members(c.reg, pool)|
  }

  /** Whoever was started is registered or has left. */
  ghost predicate Sound(c: Crew) {
    && Agree(c.reg) && c.reg.threads.Keys <= c.started.Keys
    && forall p :: CrewSize(c, p) < UINT32_MODULUS && CrewSize(c, p) + c.exits[p] == c.starts[p]
  }

  /** Workers have left, and nothing else has happened. */
  ghost predicate Left(c: Crew, c': Crew) {
    Sound(c') && Rely(c.reg, c'.reg) && c'.started == c.started && c'.starts == c.starts && c.exits <= c'.exits
  }

  lemma LeftTransitive(c: Crew, c': Crew, c'': Crew)
    requires Left(c, c') && Left(c', c'')
    ensures Left(c, c'')
  {
  }

  /** One worker leaves. */
  lemma LeavesOne(c: Crew, t: Tid)
    requires Sound(c) && t in c.reg.threads
    ensures var pool := c.reg.threads[t].pool;
            && Unregister(c.reg, pool, t).Some?
            && Left(c, c.(reg := Unregister(c.reg, pool, t).value, exits := c.exits + multiset{pool}))
  {
    var pool := c.reg.threads[t].pool;
    AgreeUnregister(c.reg, pool, t);
    var c' := c.(reg := Unregister(c.reg, pool, t).value, exits := c.exits + multiset{pool});
    forall p
      ensures CrewSize(c', p) + c'.exits[p] == c'.starts[p]
    {
      assert CrewSize(c, p) + c.exits[p] == c.starts[p];
    }
  }

  // ----- what main does

  /** The thread is the same before and after, and did not lose its mark. */
  ghost predicate Stays(c: Crew, c': Crew, t: Tid) {
    && t in c.reg.threads && t in c'.reg.threads && t in c.started && t in c'.started
    && c'.reg.threads[t].pool == c.reg.threads[t].pool && c'.started[t] == c.started[t]
    && c'.reg.threads[t].shouldShutdown == c.reg.threads[t].shouldShutdown
  }

  /** The thread was started for the directive. */
  ghost predicate StartedFor(c: Crew, d: Directive, t: Tid) {
    && t in c.reg.threads && t in c.started
    && c.reg.threads[t].pool == d.pool && c.started[t] == d.data && !c.reg.threads[t].shouldShutdown
  }

  /** `n` threads were started for the directive and nobody was marked, while workers left. */
  ghost predicate Filled(c: Crew, c': Crew, d: Directive, n: nat) {
    && Sound(c') && c'.starts == c.starts[d.pool := c.starts[d.pool] + n] && c.exits <= c'.exits
    && forall t :: t in c'.reg.threads ==> Stays(c, c', t) || StartedFor(c', d, t)
  }

  lemma FilledTransitive(c: Crew, c': Crew, c'': Crew, d: Directive, n: nat, m: nat)
    requires Filled(c, c', d, n) && Filled(c', c'', d, m)
    ensures Filled(c, c'', d, n + m)
  {
  }

  lemma LeftFills(c: Crew, c': Crew, d: Directive)
    requires Sound(c) && Left(c, c')
    ensures Filled(c, c', d, 0)
  {
  }

  ghost function Enrolled(c: Crew, t: Tid, d: Directive): Crew
    requires Agree(c.reg) && t !in c.reg.threads
  {
    AgreeRegister(c.reg, d.pool, t);
    Crew(SetState(Register(c.reg, d.pool, t).value, t, IDLE_NOTE).value, c.started[t := d.data],
         c.starts + multiset{d.pool}, c.exits)
  }

  lemma EnrolledSound(c: Crew, t: Tid, d: Directive)
    requires Sound(c) && t !in c.reg.threads && CrewSize(c, d.pool) + 1 < UINT32_MODULUS
    ensures Sound(Enrolled(c, t, d))
  {
    AgreeRegister(c.reg, d.pool, t);
    AgreeSetState(Register(c.reg, d.pool, t).value, t, IDLE_NOTE);
    MembersAgree(c.reg, d.pool, t);
    var c' := Enrolled(c, t, d);
    forall p
      ensures CrewSize(c', p) < UINT32_MODULUS && CrewSize(c', p) + c'.exits[p] == c'.starts[p]
    {
      assert CrewSize(c, p) + c.exits[p] == c.starts[p];
    }
  }

  lemma EnrolledRest(c: Crew, t: Tid, d: Directive)
    requires Agree(c.reg) && c.reg.threads.Keys <= c.started.Keys && t !in c.reg.threads
    ensures var c' := Enrolled(c, t, d);
            StartedFor(c', d, t) && forall u :: u in c'.reg.threads && u != t ==> Stays(c, c', u)
  {
    AgreeRegister(c.reg, d.pool, t);
  }

  /** A thread registers for the directive. */
  lemma JoinsOne(c: Crew, t: Tid, d: Directive)
    requires Sound(c) && t !in c.reg.threads && CrewSize(c, d.pool) + 1 < UINT32_MODULUS
    ensures Register(c.reg, d.pool, t).Some? && Filled(c, Enrolled(c, t, d), d, 1)
  {
    AgreeRegister(c.reg, d.pool, t);
    EnrolledSound(c, t, d);
    EnrolledRest(c, t, d);
    assert Enrolled(c, t, d).starts == c.starts[d.pool := c.starts[d.pool] + 1];
  }

  /** Some threads of the pool are marked, and nothing else happens. */
  function Stopped(c: Crew, pool: string, marks: set<Tid>): Crew {
    c.(reg := Mark(Touch(c.reg, pool), marks))
  }

  lemma StoppedSound(c: Crew, pool: string, surplus: uint32, marks: set<Tid>)
    requires Sound(c) && surplus >= 1 && ShutdownChoice(c.reg, pool, surplus, marks)
    ensures Sound(Stopped(c, pool, marks))
    ensures |Unmarked(Stopped(c, pool, marks).reg, pool)| ==
            |Unmarked(c.reg, pool)| - Min(surplus, |Unmarked(c.reg, pool)|)
    ensures forall t :: t in c.reg.threads && c.reg.threads[t].pool != pool ==> t !in marks
  {
    AgreeTouch(c.reg, pool);
    AgreeMark(Touch(c.reg, pool), marks);
    assert Unmarked(Touch(c.reg, pool), pool) == Unmarked(c.reg, pool);
    ShutdownEffect(Touch(c.reg, pool), pool, surplus, marks);
    forall p
      ensures CrewSize(Stopped(c, pool, marks), p) == CrewSize(c, p)
    {
    }
    forall t | t in marks
      ensures c.reg.threads[t].pool == pool
    {
      MembersAgree(c.reg, pool, t);
    }
  }

  /**
   What informing about a directive does. Main counts the crew that it has `seen`, after some
   have left. A surplus is stopped in the crew found at the `stop`, after more have left: as many
   as the surplus are marked, or all there are. A lack is made up by starting that many.
   */
  ghost predicate Informed(c: Crew, seen: Crew, stop: Crew, marks: set<Tid>, c': Crew, d: Directive) {
    var size := CrewSize(seen, d.pool);
    && Left(c, seen) && Left(seen, stop)
    && if size > d.count then
         ShutdownChoice(stop.reg, d.pool, size - d.count, marks) && Left(Stopped(stop, d.pool, marks), c')
       else
         marks == {} && Filled(seen, c', d, d.count - size)
  }

  /** The numbers that come of it, in the pool and in every other. */
  ghost predicate Settles(c: Crew, seen: Crew, c': Crew, d: Directive) {
    var size := CrewSize(seen, d.pool);
    && c'.starts == c.starts[d.pool := c.starts[d.pool] + if size < d.count then d.count - size else 0]
    && c.exits <= seen.exits <= c'.exits
    // whoever was counted or started is there or has left since
    && CrewSize(c', d.pool) + c'.exits[d.pool] - seen.exits[d.pool] == (if size < d.count then d.count else size)
    && |Unmarked(c'.reg, d.pool)| <= d.count
    && forall p :: p != d.pool ==> Unmarked(c'.reg, p) <= Unmarked(c.reg, p)
  }

  /** At most the asked number is left unmarked, whoever left between count and stop. */
  lemma StopCaps(seen: Crew, stop: Crew, marks: set<Tid>, c': Crew, pool: string, surplus: uint32)
    requires Sound(seen) && Left(seen, stop) && 1 <= surplus <= CrewSize(seen, pool)
    requires ShutdownChoice(stop.reg, pool, surplus, marks) && Left(Stopped(stop, pool, marks), c')
    ensures |Unmarked(c'.reg, pool)| <= CrewSize(seen, pool) - surplus
  {
    StoppedSound(stop, pool, surplus, marks);
    RelyMembers(seen.reg, stop.reg, pool);
    SubsetCardinality(Unmarked(stop.reg, pool), Members(stop.reg, pool));
    RelyMembers(Stopped(stop, pool, marks).reg, c'.reg, pool);
  }

  lemma StopSettles(c: Crew, seen: Crew, stop: Crew, marks: set<Tid>, c': Crew, d: Directive)
    requires Sound(c) && Informed(c, seen, stop, marks, c', d) && CrewSize(seen, d.pool) > d.count
    ensures Settles(c, seen, c', d)
  {
    StopCaps(seen, stop, marks, c', d.pool, CrewSize(seen, d.pool) - d.count);
    assert CrewSize(c', d.pool) + c'.exits[d.pool] == c'.starts[d.pool];
    assert CrewSize(seen, d.pool) + seen.exits[d.pool] == seen.starts[d.pool];
    forall p | p != d.pool
      ensures Unmarked(c'.reg, p) <= Unmarked(c.reg, p)
    {
      OthersShrink(c, seen, stop, marks, c', d, p);
    }
  }

  lemma OthersShrink(c: Crew, seen: Crew, stop: Crew, marks: set<Tid>, c': Crew, d: Directive, p: string)
    requires Sound(c) && Informed(c, seen, stop, marks, c', d) && CrewSize(seen, d.pool) > d.count
    ensures Unmarked(c'.reg, p) <= Unmarked(c.reg, p)
  {
    var stopped := Stopped(stop, d.pool, marks);
    StoppedSound(stop, d.pool, CrewSize(seen, d.pool) - d.count, marks);
    RelyMembers(c.reg, seen.reg, p);
    RelyMembers(seen.reg, stop.reg, p);
    AgreeTouch(stop.reg, d.pool);
    assert Unmarked(stopped.reg, p) <= Unmarked(stop.reg, p);
    RelyMembers(stopped.reg, c'.reg, p);
  }

  lemma FillSettles(c: Crew, seen: Crew, c': Crew, d: Directive)
    requires Sound(c) && Left(c, seen) && CrewSize(seen, d.pool) <= d.count
    requires Filled(seen, c', d, d.count - CrewSize(seen, d.pool))
    ensures Settles(c, seen, c', d)
  {
    assert CrewSize(c', d.pool) + c'.exits[d.pool] == c'.starts[d.pool];
    assert CrewSize(seen, d.pool) + seen.exits[d.pool] == seen.starts[d.pool];
    SubsetCardinality(Unmarked(c'.reg, d.pool), Members(c'.reg, d.pool));
    forall p, t | p != d.pool && t in Unmarked(c'.reg, p)
      ensures t in Unmarked(c.reg, p)
    {
      MembersAgree(c'.reg, p, t);
      MembersAgree(c.reg, p, t);
    }
  }

  class ThreadPoolWatcher {
    const registry: ThreadRegistry
    ghost var started: map<Tid, WorkData>
    ghost var starts: multiset<string>
    ghost var exits: multiset<string>
    ghost var log: seq<Directive>

    constructor (registry: ThreadRegistry)
      requires registry.View() == EMPTY_REGISTRY
      ensures this.registry == registry && View() == EMPTY_CREW && log == []
    {
      this.registry := registry;
      started, starts, exits, log := map[], multiset{}, multiset{}, [];
    }

    ghost function View(): Crew
      reads this, registry
    {
      Crew(registry.View(), started, starts, exits)
    }

    /** Any number of workers leave. */
    method Others()
      requires Sound(View())
      modifies `started, `starts, `exits, registry
      ensures Sound(View()) && Left(old(View()), View())
    {
      var wishes: set<Tid> := *;
      var leavers := wishes * registry.threads.Keys;
      while leavers != {}
        invariant Sound(View()) && Left(old(View()), View())
        invariant leavers <= registry.threads.Keys
        decreases leavers
      {
        var t :| t in leavers;
        ghost var before := View();
        LeavesOne(before, t);
        var pool := registry.threads[t].pool;
        var ok := registry.UnregisterThread(pool, t);
        assert ok;
        exits := exits + multiset{pool};
        LeftTransitive(old(View()), before, View());
        leavers := leavers - {t};
      }
    }

    /** The new thread's construction: some identifier not in use gets registered. */
    method Enrol(d: Directive)
      requires Sound(View()) && CrewSize(View(), d.pool) + 1 < UINT32_MODULUS
      modifies `started, `starts, `exits, registry
      ensures Sound(View()) && Filled(old(View()), View(), d, 1)
    {
      ghost var before := View();
      ghost var n := Bound(registry.threads.Keys);
      assert n !in registry.threads;
      var tid :| tid !in registry.threads;
      JoinsOne(before, tid, d);
      var ok := registry.RegisterThread(d.pool, tid);
      ok := registry.SetThreadState(tid, IDLE_NOTE);
      started, starts := started[tid := d.data], starts + multiset{d.pool};
      assert View() == Enrolled(before, tid, d);
    }

    /** The start handshake as main sees it: one new thread has registered, and maybe left again. */
    method StartThread(d: Directive)
      requires Sound(View()) && CrewSize(View(), d.pool) + 1 < UINT32_MODULUS
      modifies `started, `starts, `exits, registry
      ensures Sound(View()) && Filled(old(View()), View(), d, 1)
    {
      ghost var before := View();
      Others();
      ghost var spawned := View();
      RelyMembers(before.reg, spawned.reg, d.pool);
      LeftFills(before, spawned, d);
      Enrol(d);
      ghost var joined := View();
      FilledTransitive(before, spawned, joined, d, 0, 1);
      Others();
      LeftFills(joined, View(), d);
      FilledTransitive(before, joined, View(), d, 1, 0);
    }

    /** The pool is counted, and by the time that main acts on it more workers have left. */
    method Count(pool: string) returns (current: uint32, ghost seen: Crew)
      requires Sound(View())
      modifies `started, `starts, `exits, registry
      ensures Sound(View()) && Left(old(View()), seen) && Left(seen, View())
      ensures current == CrewSize(seen, pool)
    {
      Others();
      seen := View();
      current := CountNow(pool);
      ghost var counted := View();
      Others();
      LeftTransitive(seen, counted, View());
    }

    method CountNow(pool: string) returns (current: uint32)
      requires Sound(View())
      modifies registry
      ensures Sound(View()) && Left(old(View()), View()) && current == CrewSize(old(View()), pool)
    {
      ghost var before := View();
      assert CrewSize(before, pool) < UINT32_MODULUS;
      current := registry.CountPool(pool);
      TouchLeaves(before, pool);
    }

    method StopSurplus(pool: string, surplus: uint32) returns (ghost marks: set<Tid>)
      requires Sound(View()) && surplus >= 1
      modifies `started, `starts, `exits, registry
      ensures ShutdownChoice(old(View()).reg, pool, surplus, marks)
      ensures Sound(View()) && Left(Stopped(old(View()), pool, marks), View())
    {
      ghost var before := View();
      var ok, enough, marked := registry.SendShutdown(pool, surplus);
      marks := marked;
      StoppedSound(before, pool, surplus, marks);
      Others();
    }

    method Inform(d: Directive) returns (ghost seen: Crew, ghost stop: Crew, ghost marks: set<Tid>)
      requires Sound(View())
      modifies this, registry
      ensures Sound(View())
      ensures Informed(old(View()), seen, stop, marks, View(), d)
      ensures Settles(old(View()), seen, View(), d)
      ensures log == old(log) + [d]
    {
      seen, stop, marks := Adjust(d);
      log := log + [d];
    }

    method Adjust(d: Directive) returns (ghost seen: Crew, ghost stop: Crew, ghost marks: set<Tid>)
      requires Sound(View())
      modifies `started, `starts, `exits, registry
      ensures Sound(View())
      ensures Informed(old(View()), seen, stop, marks, View(), d)
      ensures Settles(old(View()), seen, View(), d)
    {
      ghost var before := View();
      var current;
      current, seen := Count(d.pool);
      stop, marks := View(), {};
      if current > d.count {
        marks := StopSurplus(d.pool, current - d.count);
        StopSettles(before, seen, stop, marks, View(), d);
      } else {
        LeftFills(seen, stop, d);
        StartMissing(d, d.count - current, seen);
        FillSettles(before, seen, View(), d);
      }
    }

    /** The start loop. */
    method StartMissing(d: Directive, toStart: nat, ghost seen: Crew)
      requires Sound(View()) && Sound(seen) && Filled(seen, View(), d, 0) && CrewSize(seen, d.pool) + toStart == d.count
      modifies `started, `starts, `exits, registry
      ensures Sound(View()) && Filled(seen, View(), d, toStart)
    {
      for i := toStart downto 0
        invariant Sound(View()) && Filled(seen, View(), d, toStart - i)
      {
        ghost var before := View();
        assert CrewSize(before, d.pool) + before.exits[d.pool] == before.starts[d.pool];
        assert CrewSize(seen, d.pool) + seen.exits[d.pool] == seen.starts[d.pool];
        StartThread(d);
        FilledTransitive(seen, before, View(), d, toStart - (i + 1), 1);
      }
    }
  }

  /** Looking a pool up changes nothing that matters. */
  lemma TouchLeaves(c: Crew, pool: string)
    requires Sound(c)
    ensures Left(c, c.(reg := Touch(c.reg, pool)))
  {
    AgreeTouch(c.reg, pool);
    forall p
      ensures CrewSize(c.(reg := Touch(c.reg, pool)), p) == CrewSize(c, p)
    {
    }
  }

  // ----- passes and shutdown

  /** Unmarked threads fit the goal or are in a pool still to be cleared. */
  ghost predicate UpToDate(c: Crew, goal: Config, pending: set<string>) {
    forall t :: t in c.reg.threads && !c.reg.threads[t].shouldShutdown ==>
      var pool := c.reg.threads[t].pool;
      || (t in c.started && Fits(c.started[t], goal, pool))
      || pool in pending
  }

  lemma LeftUpToDate(c: Crew, c': Crew, goal: Config, pending: set<string>)
    requires Left(c, c') && UpToDate(c, goal, pending)
    ensures UpToDate(c', goal, pending)
  {
  }

  lemma StoppedUpToDate(c: Crew, pool: string, marks: set<Tid>, goal: Config, pending: set<string>)
    requires UpToDate(c, goal, pending)
    ensures UpToDate(Stopped(c, pool, marks), goal, pending)
  {
  }

  lemma FilledUpToDate(c: Crew, c': Crew, d: Directive, n: nat, goal: Config, pending: set<string>)
    requires Filled(c, c', d, n) && UpToDate(c, goal, pending)
    requires d.pool in pending || (d.pool in goal.pools && d.data == DataFor(goal, d.pool))
    ensures UpToDate(c', goal, pending)
  {
  }

  lemma InformedUpToDate(c: Crew, seen: Crew, stop: Crew, marks: set<Tid>, c': Crew, d: Directive,
                         goal: Config, pending: set<string>)
    requires Informed(c, seen, stop, marks, c', d) && UpToDate(c, goal, pending)
    requires d.pool in pending || (d.pool in goal.pools && d.data == DataFor(goal, d.pool))
    ensures UpToDate(c', goal, pending)
  {
    LeftUpToDate(c, seen, goal, pending);
    LeftUpToDate(seen, stop, goal, pending);
    if CrewSize(seen, d.pool) > d.count {
      StoppedUpToDate(stop, d.pool, marks, goal, pending);
      LeftUpToDate(Stopped(stop, d.pool, marks), c', goal, pending);
    } else {
      FilledUpToDate(seen, c', d, d.count - CrewSize(seen, d.pool), goal, pending);
    }
  }

  /** A pool without unmarked threads need not be cleared any more. */
  lemma ClearedUpToDate(c: Crew, pool: string, goal: Config, pending: set<string>)
    requires Sound(c) && UpToDate(c, goal, pending) && Unmarked(c.reg, pool) == {}
    ensures UpToDate(c, goal, pending - {pool})
  {
    forall t | t in c.reg.threads && !c.reg.threads[t].shouldShutdown
      ensures c.reg.threads[t].pool != pool
    {
      MembersAgree(c.reg, c.reg.threads[t].pool, t);
      assert t in Unmarked(c.reg, c.reg.threads[t].pool);
    }
  }

  lemma SupersedeUpToDate(c: Crew, config: Config, next: Config)
    requires UpToDate(c, config, {})
    ensures UpToDate(c, next, Outdated(config, next))
  {
    forall p | p in config.pools && p !in Outdated(config, next)
      ensures p in next.pools && DataFor(config, p) == DataFor(next, p)
    {
    }
  }

  /**
   A pool after its announcement, against the crew that the pass began with: as many were started
   as make up the count with the threads that had not left when it was taken, and no more.
   */
  ghost predicate Served(c: Crew, c': Crew, pool: string, count: nat) {
    && c.starts[pool] <= c'.starts[pool] && c.exits[pool] + count <= c'.starts[pool]
    && (c'.starts[pool] == c.starts[pool] || c'.starts[pool] <= c'.exits[pool] + count)
    && |Unmarked(c'.reg, pool)| <= count
  }

  /** Done with the first directives of the stream, the clears first and then the news. */
  ghost predicate Relayed(c: Crew, c': Crew, goal: Config, clears: seq<Directive>, news: seq<Directive>) {
    && Sound(c') && UpToDate(c', goal, Pools(clears)) && c.exits <= c'.exits
    && (forall p :: p !in Pools(news) ==> c'.starts[p] == c.starts[p])
    && forall d :: d in news ==> Served(c, c', d.pool, d.count)
  }

  /** Clearing a pool starts nobody and leaves nobody unmarked. */
  lemma ClearRelayed(c: Crew, c': Crew, goal: Config, clears: seq<Directive>,
                     seen: Crew, stop: Crew, marks: set<Tid>, c'': Crew)
    requires Relayed(c, c', goal, clears, []) && clears != [] && clears[0].count == 0 && Sound(c'')
    requires Informed(c', seen, stop, marks, c'', clears[0]) && Settles(c', seen, c'', clears[0])
    ensures Relayed(c, c'', goal, clears[1..], [])
  {
    var d := clears[0];
    assert d.pool in Pools(clears);
    InformedUpToDate(c', seen, stop, marks, c'', d, goal, Pools(clears));
    ClearedUpToDate(c'', d.pool, goal, Pools(clears));
    assert forall e :: e in clears ==> e == d || e in clears[1..];
    assert Pools(clears) - {d.pool} <= Pools(clears[1..]);
  }

  /** Announcing a pool serves it. */
  lemma NewServed(c: Crew, c': Crew, seen: Crew, c'': Crew, d: Directive)
    requires Sound(c') && Left(c', seen) && Settles(c', seen, c'', d)
    requires c.exits <= c'.exits && c'.starts[d.pool] == c.starts[d.pool]
    ensures Served(c, c'', d.pool, d.count)
  {
    assert CrewSize(seen, d.pool) + seen.exits[d.pool] == seen.starts[d.pool];
  }

  /** It leaves a pool served before as it was, but for workers leaving. */
  lemma StillServed(c: Crew, c': Crew, seen: Crew, c'': Crew, d: Directive, pool: string, count: nat)
    requires Settles(c', seen, c'', d) && Served(c, c', pool, count) && pool != d.pool
    ensures Served(c, c'', pool, count)
  {
    SubsetCardinality(Unmarked(c''.reg, pool), Unmarked(c'.reg, pool));
  }

  lemma NewRelayed(c: Crew, c': Crew, goal: Config, news: seq<Directive>, d: Directive,
                   seen: Crew, stop: Crew, marks: set<Tid>, c'': Crew)
    requires Relayed(c, c', goal, [], news) && d.pool !in Pools(news) && Sound(c'')
    requires d.pool in goal.pools && d.data == DataFor(goal, d.pool)
    requires Informed(c', seen, stop, marks, c'', d) && Settles(c', seen, c'', d)
    ensures Relayed(c, c'', goal, [], news + [d])
  {
    InformedUpToDate(c', seen, stop, marks, c'', d, goal, Pools([]));
    NewServed(c, c', seen, c'', d);
    forall e | e in news
      ensures Served(c, c'', e.pool, e.count)
    {
      assert e.pool in Pools(news);
      StillServed(c, c', seen, c'', d, e.pool, e.count);
    }
    forall p | p !in Pools(news + [d])
      ensures c''.starts[p] == c.starts[p]
    {
      assert d in news + [d];
      assert forall e :: e in news ==> e in news + [d];
    }
  }

  lemma LeftRelayed(c: Crew, c': Crew, c'': Crew, goal: Config, news: seq<Directive>)
    requires Relayed(c, c', goal, [], news) && Left(c', c'')
    ensures Relayed(c, c'', goal, [], news)
  {
    LeftUpToDate(c', c'', goal, Pools([]));
    forall d | d in news
      ensures Served(c, c'', d.pool, d.count)
    {
      RelyMembers(c'.reg, c''.reg, d.pool);
    }
  }

  lemma PrefixDistinct(ds: seq<Directive>, k: nat)
    requires Distinct(ds) && k < |ds|
    ensures ds[k].pool !in Pools(ds[..k])
  {
  }

  /** The clears still to come and the news already announced after `k` directives. */
  function Remaining(clears: seq<Directive>, k: nat): seq<Directive> {
    clears[Min(k, |clears|)..]
  }

  function Announced(clears: seq<Directive>, news: seq<Directive>, k: nat): seq<Directive>
    requires k <= |clears| + |news|
  {
    news[..k - Min(k, |clears|)]
  }

  lemma RemainsOf(clears: seq<Directive>, news: seq<Directive>, k: nat)
    requires k < |clears + news|
    ensures k < |clears| ==>
              && Announced(clears, news, k) == Announced(clears, news, k + 1) == [] && Remaining(clears, k) != []
              && Remaining(clears, k)[0] == (clears + news)[k] && Remaining(clears, k)[1..] == Remaining(clears, k + 1)
    ensures k >= |clears| ==>
              && Remaining(clears, k) == Remaining(clears, k + 1) == [] && (clears + news)[k] == news[k - |clears|]
              && Announced(clears, news, k) == news[..k - |clears|]
              && Announced(clears, news, k + 1) == Announced(clears, news, k) + [news[k - |clears|]]
  {
  }

  lemma StepRelayed(c: Crew, c': Crew, goal: Config, clears: seq<Directive>, news: seq<Directive>, k: nat,
                    seen: Crew, stop: Crew, marks: set<Tid>, c'': Crew)
    requires k < |clears + news| && Distinct(news) && Sound(c'')
    requires forall d :: d in clears ==> d.count == 0
    requires forall d :: d in news ==> d.pool in goal.pools && d == DirectiveFor(goal, d.pool)
    requires Relayed(c, c', goal, Remaining(clears, k), Announced(clears, news, k))
    requires Informed(c', seen, stop, marks, c'', (clears + news)[k]) && Settles(c', seen, c'', (clears + news)[k])
    ensures Relayed(c, c'', goal, Remaining(clears, k + 1), Announced(clears, news, k + 1))
  {
    RemainsOf(clears, news, k);
    if k < |clears| {
      ClearRelayed(c, c', goal, Remaining(clears, k), seen, stop, marks, c'');
    } else {
      PrefixDistinct(news, k - |clears|);
      NewRelayed(c, c', goal, Announced(clears, news, k), news[k - |clears|], seen, stop, marks, c'');
    }
  }

  lemma LogGrows(sent: seq<Directive>, ds: seq<Directive>, k: nat)
    requires k < |ds|
    ensures sent + ds[..k] + [ds[k]] == sent + ds[..k + 1]
  {
  }

  lemma AllServed(c: Crew, c': Crew, next: Config, news: seq<Directive>)
    requires Relayed(c, c', next, [], news) && IsAnnouncing(next, news)
    ensures forall p :: p in next.pools ==> Served(c, c', p, next.pools[p].workerCount)
  {
    forall p | p in next.pools
      ensures Served(c, c', p, next.pools[p].workerCount)
    {
      assert p in Pools(news);
    }
  }

  /** What a pass over a configuration makes of the crew. */
  ghost predicate Passed(c: Crew, c': Crew, next: Config) {
    && Sound(c') && UpToDate(c', next, {}) && c.exits <= c'.exits
    && (forall p :: p in next.pools ==> Served(c, c', p, next.pools[p].workerCount))
    && forall p :: p !in next.pools ==> c'.starts[p] == c.starts[p]
  }

  lemma RelayedPasses(c: Crew, c': Crew, next: Config, news: seq<Directive>)
    requires Relayed(c, c', next, [], news) && IsAnnouncing(next, news)
    ensures Passed(c, c', next)
  {
    PoolsEmpty([]);
    AllServed(c, c', next, news);
  }

  /** The stream of a supersession is one that can be relayed. */
  lemma StreamFits(c: Crew, config: Config, next: Config, clears: seq<Directive>, news: seq<Directive>)
    requires UpToDate(c, config, {}) && IsSupersede(config, next, clears, news)
    ensures UpToDate(c, next, Pools(clears)) && Distinct(news)
    ensures forall d :: d in clears ==> d.count == 0
    ensures forall d :: d in news ==> d.pool in next.pools && d == DirectiveFor(next, d.pool)
  {
    SupersedeUpToDate(c, config, next);
  }

  /** One turn of the main loop: the directives that it sent and the crew that it left. */
  datatype Turn = Turn(clears: seq<Directive>, news: seq<Directive>, crew: Crew)

  function Sent(turns: seq<Turn>): seq<Directive> {
    if turns == [] then []
    else Sent(turns[..|turns| - 1]) + turns[|turns| - 1].clears + turns[|turns| - 1].news
  }

  /** The configuration and the crew before turn `k`. */
  function ConfigBefore(first: Config, loads: seq<Config>, k: nat): Config
    requires k <= |loads|
  {
    if k == 0 then first else loads[k - 1]
  }

  function CrewBefore(first: Crew, turns: seq<Turn>, k: nat): Crew
    requires k <= |turns|
  {
    if k == 0 then first else turns[k - 1].crew
  }

  /** Every load has its turn, in order: its configuration supersedes the one before. */
  ghost predicate Turns(first: Config, start: Crew, loads: seq<Config>, turns: seq<Turn>) {
    && |turns| == |loads|
    && forall k: nat :: k < |turns| ==> TurnAt(first, start, loads, turns, k)
  }

  ghost predicate TurnAt(first: Config, start: Crew, loads: seq<Config>, turns: seq<Turn>, k: nat)
    requires k < |turns| == |loads|
  {
    && IsSupersede(ConfigBefore(first, loads, k), loads[k], turns[k].clears, turns[k].news)
    && Passed(CrewBefore(start, turns, k), turns[k].crew, loads[k])
  }

  /** After turns for the loads: the configuration, the crew and the directives so far. */
  ghost predicate Reached(first: Config, start: Crew, loads: seq<Config>, turns: seq<Turn>,
                          config: Config, crew: Crew, sent: seq<Directive>)
  {
    && Turns(first, start, loads, turns)
    && config == ConfigBefore(first, loads, |loads|) && crew == CrewBefore(start, turns, |turns|)
    && sent == Sent(turns)
  }

  lemma OneMoreTurn(first: Config, start: Crew, loads: seq<Config>, turns: seq<Turn>,
                    config: Config, crew: Crew, sent: seq<Directive>, next: Config, turn: Turn)
    requires Reached(first, start, loads, turns, config, crew, sent)
    requires IsSupersede(config, next, turn.clears, turn.news) && Passed(crew, turn.crew, next)
    ensures Reached(first, start, loads + [next], turns + [turn], next, turn.crew, sent + (turn.clears + turn.news))
  {
    var loads', turns' := loads + [next], turns + [turn];
    assert turns'[..|turns'| - 1] == turns;
    assert sent + (turn.clears + turn.news) == sent + turn.clears + turn.news;
    forall k: nat | k < |turns'|
      ensures TurnAt(first, start, loads', turns', k)
    {
      if k < |turns| {
        assert TurnAt(first, start, loads, turns, k);
      }
    }
  }

  class Driver {
    const watcher: ThreadPoolWatcher
    var config: DriveshaftConfig
    var force: bool

    constructor (registry: ThreadRegistry)
      requires registry.View() == EMPTY_REGISTRY
      ensures Sound(watcher.View()) && UpToDate(watcher.View(), config.View(), {})
      ensures watcher.registry == registry && fresh(config) && fresh(watcher)
      ensures watcher.View() == EMPTY_CREW && watcher.log == [] && config.View() == EMPTY_CONFIG && !force
    {
      watcher := new ThreadPoolWatcher(registry);
      config := new DriveshaftConfig();
      force := false;
    }

    /** The watcher is informed of clearings and announcements, in order; then main goes to sleep. */
    method Relay(directives: seq<Directive>, ghost clears: seq<Directive>, ghost news: seq<Directive>,
                 ghost goal: Config)
      requires directives == clears + news && Distinct(news)
      requires Sound(watcher.View()) && UpToDate(watcher.View(), goal, Pools(clears))
      requires forall d :: d in clears ==> d.count == 0
      requires forall d :: d in news ==> d.pool in goal.pools && d == DirectiveFor(goal, d.pool)
      modifies watcher, watcher.registry
      ensures Relayed(old(watcher.View()), watcher.View(), goal, [], news)
      ensures watcher.log == old(watcher.log) + directives
    {
      ghost var start := watcher.View();
      RelayAll(directives, clears, news, goal);
      ghost var relayed := watcher.View();
      watcher.Others();
      LeftRelayed(start, relayed, watcher.View(), goal, news);
    }

    method RelayAll(directives: seq<Directive>, ghost clears: seq<Directive>, ghost news: seq<Directive>,
                    ghost goal: Config)
      requires directives == clears + news && Distinct(news)
      requires Sound(watcher.View()) && UpToDate(watcher.View(), goal, Pools(clears))
      requires forall d :: d in clears ==> d.count == 0
      requires forall d :: d in news ==> d.pool in goal.pools && d == DirectiveFor(goal, d.pool)
      modifies watcher, watcher.registry
      ensures Relayed(old(watcher.View()), watcher.View(), goal, [], news)
      ensures watcher.log == old(watcher.log) + directives
    {
      ghost var start, sent := watcher.View(), watcher.log;
      assert clears[0..] == clears && news[..0] == [];
      for k := 0 to |directives|
        invariant Relayed(start, watcher.View(), goal, Remaining(clears, k), Announced(clears, news, k))
        invariant watcher.log == sent + directives[..k]
      {
        RelayOne(directives[k], clears, news, k, goal, start);
        LogGrows(sent, directives, k);
      }
      assert directives[..|directives|] == directives;
      assert clears[|clears|..] == [] && news[..|news|] == news;
    }

    method RelayOne(d: Directive, ghost clears: seq<Directive>, ghost news: seq<Directive>, ghost k: nat,
                    ghost goal: Config, ghost start: Crew)
      requires k < |clears + news| && d == (clears + news)[k] && Distinct(news)
      requires forall d :: d in clears ==> d.count == 0
      requires forall d :: d in news ==> d.pool in goal.pools && d == DirectiveFor(goal, d.pool)
      requires Relayed(start, watcher.View(), goal, Remaining(clears, k), Announced(clears, news, k))
      modifies watcher, watcher.registry
      ensures Relayed(start, watcher.View(), goal, Remaining(clears, k + 1), Announced(clears, news, k + 1))
      ensures watcher.log == old(watcher.log) + [d]
    {
      ghost var before := watcher.View();
      var seen, stop, marks := watcher.Inform(d);
      StepRelayed(start, before, goal, clears, news, k, seen, stop, marks, watcher.View());
    }

    /**
     One turn of the main loop, with the sleep at its end: the new configuration supersedes the
     old one, every unmarked thread then fits it, every pool of it has been served, and nothing
     was started in any other.
     */
    method Pass(next: Config) returns (ghost turn: Turn)
      requires Sound(watcher.View()) && UpToDate(watcher.View(), config.View(), {})
      modifies `config, config, watcher, watcher.registry
      ensures turn.crew == watcher.View() && Passed(old(watcher.View()), watcher.View(), next)
      ensures IsSupersede(old(config.View()), next, turn.clears, turn.news)
      ensures watcher.log == old(watcher.log) + (turn.clears + turn.news)
      ensures config.View() == next && fresh(config)
    {
      ghost var start := watcher.View();
      var loaded := new DriveshaftConfig.Loaded(next);
      var recorder := new PoolWatcher();
      ghost var previous := config.View();
      var ok, clears, news := loaded.Supersede(config, recorder);
      assert recorder.log == clears + news;
      StreamFits(start, previous, next, clears, news);
      Relay(recorder.log, clears, news, next);
      config := loaded;
      RelayedPasses(start, watcher.View(), next, news);
      turn := Turn(clears, news, watcher.View());
    }

    /**
     Shutdown, with its sleep: the force flag is set, every pool is told to stop, every registered
     thread ends up marked, and none is started.
     */
    method DoShutdown() returns (ghost stops: seq<Directive>)
      requires Sound(watcher.View()) && UpToDate(watcher.View(), config.View(), {})
      modifies `force, config, watcher, watcher.registry
      ensures force
      ensures IsClearing(old(config.View()), old(config.pools.Keys), stops)
      ensures watcher.log == old(watcher.log) + stops
      ensures Zeroed(old(config.View()), config.View(), old(config.pools.Keys))
      ensures Sound(watcher.View()) && watcher.starts == old(watcher.starts) && old(watcher.exits) <= watcher.exits
      ensures forall t :: t in watcher.registry.threads ==> watcher.registry.threads[t].shouldShutdown
    {
      force := true;
      ghost var start := watcher.View();
      var recorder := new PoolWatcher();
      ghost var pools := config.pools.Keys;
      var ok, clears := config.ClearAllWorkerCounts(recorder);
      stops := clears;
      assert UpToDate(start, EMPTY_CONFIG, pools);
      assert recorder.log == clears + [];
      Relay(recorder.log, clears, [], EMPTY_CONFIG);
    }

    /**
     The main loop over whatever configurations it loads before it is told to stop: a turn for
     each, in order, and then the shutdown of the last.
     */
    method Run(loads: seq<Config>) returns (ghost turns: seq<Turn>, ghost stops: seq<Directive>)
      requires Sound(watcher.View()) && UpToDate(watcher.View(), config.View(), {})
      modifies this, config, watcher, watcher.registry
      ensures force
      ensures Turns(old(config.View()), old(watcher.View()), loads, turns)
      ensures var last := ConfigBefore(old(config.View()), loads, |loads|);
              && IsClearing(last, last.pools.Keys, stops) && Zeroed(last, config.View(), last.pools.Keys)
      ensures watcher.log == old(watcher.log) + Sent(turns) + stops
      ensures var crew := CrewBefore(old(watcher.View()), turns, |turns|);
              Sound(watcher.View()) && watcher.starts == crew.starts && crew.exits <= watcher.exits
      ensures forall t :: t in watcher.registry.threads ==> watcher.registry.threads[t].shouldShutdown
    {
      ghost var sent;
      turns, sent := TakeTurns(loads);
      stops := DoShutdown();
    }

    /** The turns of the loop, before it is told to stop. */
    method TakeTurns(loads: seq<Config>) returns (ghost turns: seq<Turn>, ghost sent: seq<Directive>)
      requires Sound(watcher.View()) && UpToDate(watcher.View(), config.View(), {})
      modifies `config, config, watcher, watcher.registry
      ensures Sound(watcher.View()) && UpToDate(watcher.View(), config.View(), {})
      ensures config == old(config) || fresh(config)
      ensures Reached(old(config.View()), old(watcher.View()), loads, turns, config.View(), watcher.View(), sent)
      ensures watcher.log == old(watcher.log) + sent
    {
      ghost var first, start := config.View(), watcher.View();
      turns, sent := [], [];
      for k := 0 to |loads|
        invariant Sound(watcher.View()) && UpToDate(watcher.View(), config.View(), {})
        invariant config == old(config) || fresh(config)
        invariant Reached(first, start, loads[..k], turns, config.View(), watcher.View(), sent)
        invariant watcher.log == old(watcher.log) + sent
      {
        var turn := TakeTurn(first, start, loads[..k], turns, sent, loads[k]);
        assert loads[..k + 1] == loads[..k] + [loads[k]];
        turns, sent := turns + [turn], sent + (turn.clears + turn.news);
      }
      assert loads[..|loads|] == loads;
    }

    method TakeTurn(ghost first: Config, ghost start: Crew, ghost loads: seq<Config>, ghost turns: seq<Turn>,
                    ghost sent: seq<Directive>, next: Config)
      returns (ghost turn: Turn)
      requires Sound(watcher.View()) && UpToDate(watcher.View(), config.View(), {})
      requires Reached(first, start, loads, turns, config.View(), watcher.View(), sent)
      modifies `config, config, watcher, watcher.registry
      ensures Sound(watcher.View()) && UpToDate(watcher.View(), config.View(), {}) && fresh(config)
      ensures Reached(first, start, loads + [next], turns + [turn], config.View(), watcher.View(),
                      sent + (turn.clears + turn.news))
      ensures watcher.log == old(watcher.log) + (turn.clears + turn.news)
    {
      ghost var previous, crew := config.View(), watcher.View();
      turn := Pass(next);
      OneMoreTurn(first, start, loads, turns, previous, crew, sent, next, turn);
    }
  }
}
