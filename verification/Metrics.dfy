/**
 The exported metrics: gauges for the threads of each pool, and counters for the jobs. The
 original's prometheus families become integer maps in which a missing label reads as zero.
 */
module Metrics {
  /** `idle` by pool, `working` by pool and function. */
  datatype Gauges = Gauges(idle: map<string, int>, working: map<(string, string), int>)

  const ZERO_GAUGES := Gauges(map[], map[])

  function Get<K>(m: map<K, int>, k: K): int {
    if k in m then m[k] else 0
  }

  function Idle(g: Gauges, pool: string): int {
    Get(g.idle, pool)
  }

  function Working(g: Gauges, pool: string, fn: string): int {
    Get(g.working, (pool, fn))
  }

  function AddIdle(g: Gauges, pool: string, n: int): Gauges {
    g.(idle := g.idle[pool := Idle(g, pool) + n])
  }

  function AddWorking(g: Gauges, pool: string, fn: string, n: int): Gauges {
    g.(working := g.working[(pool, fn) := Working(g, pool, fn) + n])
  }

  function StartedWork(g: Gauges, pool: string, fn: string): Gauges {
    AddIdle(AddWorking(g, pool, fn, 1), pool, -1)
  }

  function CompletedWork(g: Gauges, pool: string, fn: string): Gauges {
    AddIdle(AddWorking(g, pool, fn, -1), pool, 1)
  }

  /** `n` threads of the pool go from idle to working at the function, and no other label moves. */
  ghost predicate Shifted(g: Gauges, g': Gauges, pool: string, fn: string, n: int) {
    && (forall p :: Idle(g', p) == Idle(g, p) - if p == pool then n else 0)
    && (forall p, f :: Working(g', p, f) == Working(g, p, f) + if p == pool && f == fn then n else 0)
  }

  /** Completing work undoes starting it, at every label. */
  lemma WorkRoundTrip(g: Gauges, pool: string, fn: string)
    ensures Shifted(g, StartedWork(g, pool, fn), pool, fn, 1)
    ensures Shifted(g, CompletedWork(g, pool, fn), pool, fn, -1)
    ensures Shifted(g, CompletedWork(StartedWork(g, pool, fn), pool, fn), pool, fn, 0)
  {
  }

  /** `http` carries the status as its third label. */
  datatype Counters = Counters(successes: map<(string, string), int>, errors: map<(string, string), int>,
                               timeouts: map<(string, string), int>, http: map<(string, string, nat), int>)

  const ZERO_COUNTERS := Counters(map[], map[], map[], map[])

  function Bump<K>(m: map<K, int>, k: K): map<K, int> {
    m[k := Get(m, k) + 1]
  }

  class MetricProxy {
    var gauges: Gauges
    var counters: Counters

    constructor ()
      ensures gauges == ZERO_GAUGES && counters == ZERO_COUNTERS
    {
      gauges, counters := ZERO_GAUGES, ZERO_COUNTERS;
    }

    method ReportJobSuccess(pool: string, fn: string)
      modifies this`counters
      ensures counters == old(counters).(successes := Bump(old(counters).successes, (pool, fn)))
    {
      counters := counters.(successes := Bump(counters.successes, (pool, fn)));
    }

    method ReportHttpJobError(pool: string, fn: string, status: nat)
      modifies this`counters
      ensures counters == old(counters).(http := Bump(old(counters).http, (pool, fn, status)))
    {
      counters := counters.(http := Bump(counters.http, (pool, fn, status)));
    }

    method ReportJobTimeout(pool: string, fn: string)
      modifies this`counters
      ensures counters == old(counters).(timeouts := Bump(old(counters).timeouts, (pool, fn)))
    {
      counters := counters.(timeouts := Bump(counters.timeouts, (pool, fn)));
    }

    method ReportJobError(pool: string, fn: string)
      modifies this`counters
      ensures counters == old(counters).(errors := Bump(old(counters).errors, (pool, fn)))
    {
      counters := counters.(errors := Bump(counters.errors, (pool, fn)));
    }

    method ReportThreadStartingWork(pool: string, fn: string)
      modifies this`gauges
      ensures Shifted(old(gauges), gauges, pool, fn, 1)
      ensures gauges == StartedWork(old(gauges), pool, fn)
    {
      gauges := AddWorking(gauges, pool, fn, 1);
      gauges := AddIdle(gauges, pool, -1);
    }

    method ReportThreadWorkComplete(pool: string, fn: string)
      modifies this`gauges
      ensures Shifted(old(gauges), gauges, pool, fn, -1)
      ensures gauges == CompletedWork(old(gauges), pool, fn)
    {
      gauges := AddWorking(gauges, pool, fn, -1);
      gauges := AddIdle(gauges, pool, 1);
    }

    method ReportThreadStarted(pool: string)
      modifies this`gauges
      ensures gauges == AddIdle(old(gauges), pool, 1)
    {
      gauges := AddIdle(gauges, pool, 1);
    }

    method ReportThreadEnded(pool: string)
      modifies this`gauges
      ensures gauges == AddIdle(old(gauges), pool, -1)
    {
      gauges := AddIdle(gauges, pool, -1);
    }
  }

  /** What one thread contributes: the functions it is running, the latest first, and the gauges. */
  datatype Ledger = Ledger(active: seq<string>, gauges: Gauges)

  function StartWork(l: Ledger, pool: string, fn: string): Ledger {
    Ledger([fn] + l.active, StartedWork(l.gauges, pool, fn))
  }

  function CompleteWork(l: Ledger, pool: string): Ledger {
    if l.active == [] then l
    else Ledger(l.active[1..], CompletedWork(l.gauges, pool, l.active[0]))
  }

  function EndThread(l: Ledger, pool: string): Ledger {
    if l.active == [] then l.(gauges := AddIdle(l.gauges, pool, -1))
    else Ledger(l.active[1..], CompletedWork(l.gauges, pool, l.active[0]))
  }

  /** Completing work undoes the start of the latest, on the stack and at every label. */
  lemma CompleteUndoesStart(l: Ledger, pool: string, fn: string)
    ensures var l' := CompleteWork(StartWork(l, pool, fn), pool);
            l'.active == l.active && Shifted(l.gauges, l'.gauges, pool, fn, 0)
  {
    WorkRoundTrip(l.gauges, pool, fn);
  }

  /** One per thread, over the shared proxy; `active` is the original's stack, top first. */
  class MetricProxyPoolWrapper {
    const pool: string
    const proxy: MetricProxy
    var active: seq<string>

    constructor (pool: string, proxy: MetricProxy)
      ensures this.pool == pool && this.proxy == proxy && active == []
    {
      this.pool, this.proxy, active := pool, proxy, [];
    }

    function View(): Ledger
      reads this, proxy
    {
      Ledger(active, proxy.gauges)
    }

    method ReportThreadStarted()
      modifies proxy`gauges
      ensures View() == old(View()).(gauges := AddIdle(old(View()).gauges, pool, 1))
    {
      proxy.ReportThreadStarted(pool);
    }

    method ReportThreadEnded()
      modifies this, proxy`gauges
      ensures View() == EndThread(old(View()), pool)
    {
      if active == [] {
        proxy.ReportThreadEnded(pool);
      } else {
        proxy.ReportThreadWorkComplete(pool, active[0]);
        active := active[1..];
      }
    }

    method ReportThreadStartingWork(fn: string)
      modifies this, proxy`gauges
      ensures View() == StartWork(old(View()), pool, fn)
    {
      proxy.ReportThreadStartingWork(pool, fn);
      active := [fn] + active;
    }

    method ReportThreadWorkComplete()
      modifies this, proxy`gauges
      ensures View() == CompleteWork(old(View()), pool)
    {
      if active == [] {
        return;
      }
      proxy.ReportThreadWorkComplete(pool, active[0]);
      active := active[1..];
    }
  }
}
