/**
 Configurations and the difference between two of them. `compare` says which pools must be
 restarted and `supersede` turns an old and a new configuration into an ordered stream of
 directives, each naming a pool, how many workers it should have and what they should work on.
 The original walks its sorted maps and sets in order; every order is allowed here.
 */
module Configs {
  import opened Common

  datatype PoolData = PoolData(workerCount: uint32, uri: string, jobs: set<string>)

  datatype Config = Config(servers: set<string>, pools: map<string, PoolData>)

  const EMPTY_CONFIG := Config({}, map[])

  /** What a worker is started with, besides its pool. */
  datatype WorkData = WorkData(servers: set<string>, jobs: set<string>, uri: string)

  datatype Directive = Directive(count: uint32, pool: string, data: WorkData)

  function DataFor(c: Config, pool: string): WorkData
    requires pool in c.pools
  {
    WorkData(c.servers, c.pools[pool].jobs, c.pools[pool].uri)
  }

  function DirectiveFor(c: Config, pool: string): Directive
    requires pool in c.pools
  {
    Directive(c.pools[pool].workerCount, pool, DataFor(c, pool))
  }

  function ClearDirective(c: Config, pool: string): Directive
    requires pool in c.pools
  {
    Directive(0, pool, DataFor(c, pool))
  }

  function Cleared(c: Config, pools: set<string>): Config {
    c.(pools := map p | p in c.pools ::
         if p in pools then c.pools[p].(workerCount := 0) else c.pools[p])
  }

  /** The data are the configuration's servers and the pool's own jobs and URI. */
  ghost predicate Fits(data: WorkData, c: Config, pool: string) {
    && pool in c.pools
    && data.servers == c.servers && data.jobs == c.pools[pool].jobs && data.uri == c.pools[pool].uri
  }

  /** The pool is set to zero, and nothing else about the configuration changes. */
  ghost predicate Zeroed(c: Config, c': Config, pools: set<string>) {
    && c'.servers == c.servers && c'.pools.Keys == c.pools.Keys
    && forall p :: p in c.pools ==>
         && c'.pools[p].uri == c.pools[p].uri && c'.pools[p].jobs == c.pools[p].jobs
         && c'.pools[p].workerCount == if p in pools then 0 else c.pools[p].workerCount
  }

  /** The pools whose workers under `a` are of no use under `b`. */
  function Outdated(a: Config, b: Config): set<string> {
    set p | p in a.pools && !(p in b.pools && DataFor(a, p) == DataFor(b, p))
  }

  /**
   Neither side has anything outdated exactly when the configurations name the same pools with
   the same URIs and jobs, and the same servers unless there is no pool at all.
   */
  lemma NothingOutdated(a: Config, b: Config)
    ensures Outdated(a, b) == {} && Outdated(b, a) == {} <==>
            && a.pools.Keys == b.pools.Keys
            && (forall p :: p in a.pools ==> a.pools[p].uri == b.pools[p].uri && a.pools[p].jobs == b.pools[p].jobs)
            && (a.servers == b.servers || (a.pools == map[] && b.pools == map[]))
  {
    if Outdated(a, b) == {} && Outdated(b, a) == {} {
      forall p
        ensures p in a.pools <==> p in b.pools
        ensures p in a.pools ==> DataFor(a, p) == DataFor(b, p)
      {
        assert p !in Outdated(a, b) && p !in Outdated(b, a);
      }
      if a.pools != map[] {
        var p :| p in a.pools;
        assert DataFor(a, p) == DataFor(b, p);
      }
      assert a.pools.Keys == b.pools.Keys;
    }
  }

  /** The two differ in worker counts at most. */
  ghost predicate SameButCounts(a: Config, b: Config) {
    && a.servers == b.servers && a.pools.Keys == b.pools.Keys
    && forall p :: p in a.pools ==> a.pools[p].uri == b.pools[p].uri && a.pools[p].jobs == b.pools[p].jobs
  }

  /** Worker counts play no part, on either side. */
  lemma OutdatedIgnoresCounts(a: Config, a': Config, b: Config, b': Config)
    requires SameButCounts(a, a') && SameButCounts(b, b')
    ensures Outdated(a', b') == Outdated(a, b)
  {
    forall p | p in a.pools
      ensures DataFor(a', p) == DataFor(a, p)
    {
    }
    forall p | p in b.pools
      ensures DataFor(b', p) == DataFor(b, p)
    {
    }
  }

  function Pools(ds: seq<Directive>): set<string> {
    set d | d in ds :: d.pool
  }

  lemma PoolsEmpty(ds: seq<Directive>)
    ensures Pools(ds) == {} <==> ds == []
  {
    if ds != [] {
      assert ds[0].pool in Pools(ds);
    }
  }

  ghost predicate Distinct(ds: seq<Directive>) {
    forall i, j :: 0 <= i < j < |ds| ==> ds[i].pool != ds[j].pool
  }

  /** Each pool is cleared once, with the data it ran with until now. */
  ghost predicate IsClearing(c: Config, pools: set<string>, ds: seq<Directive>)
    requires pools <= c.pools.Keys
  {
    && Distinct(ds) && Pools(ds) == pools
    && forall d :: d in ds ==> d == ClearDirective(c, d.pool)
  }

  /** Each pool of the configuration is announced once. */
  ghost predicate IsAnnouncing(c: Config, ds: seq<Directive>) {
    && Distinct(ds) && Pools(ds) == c.pools.Keys
    && forall d :: d in ds ==> d.pool in c.pools && d == DirectiveFor(c, d.pool)
  }

  /** The two loops of `supersede`: `clears` then `news`. */
  ghost predicate IsSupersede(a: Config, b: Config, clears: seq<Directive>, news: seq<Directive>) {
    IsClearing(a, Outdated(a, b), clears) && IsAnnouncing(b, news)
  }

  /** Worker counts after a stream of directives, where the last one for a pool wins. */
  function Settle(ds: seq<Directive>, counts: map<string, uint32>): map<string, uint32> {
    if ds == [] then counts else Settle(ds[1..], counts[ds[0].pool := ds[0].count])
  }

  lemma {:induction false} SettleConcat(xs: seq<Directive>, ys: seq<Directive>, counts: map<string, uint32>)
    ensures Settle(xs + ys, counts) == Settle(ys, Settle(xs, counts))
  {
    if xs == [] {
      assert xs + ys == ys;
    } else {
      assert (xs + ys)[1..] == xs[1..] + ys;
      SettleConcat(xs[1..], ys, counts[xs[0].pool := xs[0].count]);
    }
  }

  lemma {:induction false} SettleDistinct(ds: seq<Directive>, counts: map<string, uint32>)
    requires Distinct(ds)
    ensures var m := Settle(ds, counts);
            && m.Keys == counts.Keys + Pools(ds)
            && (forall d :: d in ds ==> m[d.pool] == d.count)
            && (forall p :: p in counts && p !in Pools(ds) ==> m[p] == counts[p])
  {
    if ds == [] {
      assert Pools(ds) == {};
    } else {
      var rest := ds[1..];
      assert forall d :: d in ds <==> d == ds[0] || d in rest;
      assert Pools(ds) == {ds[0].pool} + Pools(rest);
      SettleDistinct(rest, counts[ds[0].pool := ds[0].count]);
    }
  }

  /**
   Whatever counts the pools had before, they end with the new ones, with none if the new
   configuration dropped them, and unchanged if neither configuration knows them.
   */
  lemma SupersedeSettles(a: Config, b: Config, clears: seq<Directive>, news: seq<Directive>,
                         counts: map<string, uint32>)
    requires IsSupersede(a, b, clears, news)
    ensures var m := Settle(clears + news, counts);
            && (forall p :: p in b.pools ==> p in m && m[p] == b.pools[p].workerCount)
            && (forall p :: p in a.pools && p !in b.pools ==> p in m && m[p] == 0)
            && (forall p :: p !in a.pools && p !in b.pools ==>
                  (p in m <==> p in counts) && (p in m ==> m[p] == counts[p]))
  {
    SettleConcat(clears, news, counts);
    forall p
      ensures var m := Settle(news, Settle(clears, counts));
              && (p in b.pools ==> p in m && m[p] == b.pools[p].workerCount)
              && (p in a.pools && p !in b.pools ==> p in m && m[p] == 0)
              && (p !in a.pools && p !in b.pools ==> (p in m <==> p in counts) && (p in m ==> m[p] == counts[p]))
    {
      SettlesAt(a, b, clears, news, counts, p);
    }
  }

  lemma SettlesAt(a: Config, b: Config, clears: seq<Directive>, news: seq<Directive>, counts: map<string, uint32>,
                  p: string)
    requires IsSupersede(a, b, clears, news)
    ensures var m := Settle(news, Settle(clears, counts));
            && (p in b.pools ==> p in m && m[p] == b.pools[p].workerCount)
            && (p in a.pools && p !in b.pools ==> p in m && m[p] == 0)
            && (p !in a.pools && p !in b.pools ==> (p in m <==> p in counts) && (p in m ==> m[p] == counts[p]))
  {
    SettleDistinct(clears, counts);
    SettleDistinct(news, Settle(clears, counts));
    if p in b.pools {
      assert p in Pools(news);
      var d :| d in news && d.pool == p;
    } else if p in a.pools {
      assert p in Outdated(a, b) && p in Pools(clears);
      var d :| d in clears && d.pool == p;
    } else {
      assert p !in Pools(clears) && p !in Pools(news);
    }
  }

  ghost predicate ClearedThenAnnounced(ds: seq<Directive>, clear: Directive, announce: Directive) {
    exists i, j :: 0 <= i < j < |ds| && ds[i] == clear && ds[j] == announce
  }

  /**
   A pool that survives is cleared, with its old data and before its announcement, exactly when
   the servers, its URI or its jobs changed.
   */
  lemma SurvivorCleared(a: Config, b: Config, clears: seq<Directive>, news: seq<Directive>, pool: string)
    requires IsSupersede(a, b, clears, news) && pool in a.pools && pool in b.pools
    ensures ClearedThenAnnounced(clears + news, ClearDirective(a, pool), DirectiveFor(b, pool)) <==>
            a.servers != b.servers || a.pools[pool].uri != b.pools[pool].uri || a.pools[pool].jobs != b.pools[pool].jobs
  {
    var ds := clears + news;
    if DataFor(a, pool) != DataFor(b, pool) {
      assert pool in Pools(clears) && pool in Pools(news);
      var c :| c in clears && c.pool == pool;
      var i :| 0 <= i < |clears| && clears[i] == c;
      var d :| d in news && d.pool == pool;
      var j :| 0 <= j < |news| && news[j] == d;
      assert ds[i] == ClearDirective(a, pool) && ds[|clears| + j] == DirectiveFor(b, pool);
    } else {
      forall i | 0 <= i < |clears|
        ensures ds[i].pool != pool
      {
        assert clears[i].pool in Pools(clears);
      }
    }
  }

  /** Nothing is cleared when the configuration does not change. */
  lemma SupersedeSelf(c: Config, clears: seq<Directive>, news: seq<Directive>)
    requires IsSupersede(c, c, clears, news)
    ensures clears == []
  {
    assert Outdated(c, c) == {};
    PoolsEmpty(clears);
  }

  /** The watcher as the configuration sees it: something that receives directives in order. */
  class PoolWatcher {
    var log: seq<Directive>

    constructor ()
      ensures log == []
    {
      log := [];
    }

    method Inform(d: Directive)
      modifies this
      ensures log == old(log) + [d]
    {
      log := log + [d];
    }
  }

  class DriveshaftConfig {
    var servers: set<string>
    var pools: map<string, PoolData>

    function View(): Config
      reads this
    {
      Config(servers, pools)
    }

    constructor ()
      ensures View() == EMPTY_CONFIG
    {
      servers, pools := {}, map[];
    }

    /** A configuration as it is after loading. */
    constructor Loaded(c: Config)
      ensures View() == c
    {
      servers, pools := c.servers, c.pools;
    }

    /**
     The pools to turn off and those to turn on, by the original's own set differences and its
     loop over the pools present on both sides.
     */
    method Compare(that: DriveshaftConfig) returns (off: set<string>, on: set<string>)
      ensures off == Outdated(View(), that.View())
      ensures on == Outdated(that.View(), View())
    {
      var current := pools.Keys;
      var latest := that.pools.Keys;
      if servers != that.servers {
        return current, latest;
      }
      off, on := current - latest, latest - current;
      var todo := pools.Keys;
      while todo != {}
        invariant todo <= pools.Keys
        invariant off == Outdated(View(), that.View()) - (todo * latest)
        invariant on == Outdated(that.View(), View()) - (todo * latest)
        decreases todo
      {
        var p :| p in todo;
        todo := todo - {p};
        if p in that.pools {
          var restart := false;
          if that.pools[p].uri != pools[p].uri {
            restart := true;
          } else {
            var mine, theirs := pools[p].jobs, that.pools[p].jobs;
            var diff := (mine - theirs) + (theirs - mine);
            assert diff == {} <==> mine == theirs;
            restart := |diff| != 0;
          }
          assert restart <==> DataFor(View(), p) != DataFor(that.View(), p);
          if restart {
            off, on := off + {p}, on + {p};
          }
        }
      }
    }

    /** `!ok` is the exception for a pool that the configuration does not have. */
    method ClearWorkerCount(pool: string, watcher: PoolWatcher) returns (ok: bool)
      modifies this, watcher
      ensures ok <==> pool in old(pools)
      ensures View() == Cleared(old(View()), {pool}) && Zeroed(old(View()), View(), {pool})
      ensures watcher.log == old(watcher.log) + if ok then [ClearDirective(old(View()), pool)] else []
      ensures ok ==> var d := watcher.log[|old(watcher.log)|];
                     d.pool == pool && d.count == 0 && Fits(d.data, old(View()), pool)
    {
      if pool !in pools {
        assert Cleared(View(), {pool}).pools == pools;
        return false;
      }
      pools := pools[pool := pools[pool].(workerCount := 0)];
      watcher.Inform(Directive(0, pool, WorkData(servers, pools[pool].jobs, pools[pool].uri)));
      return true;
    }

    /** Clearing a set of pools one by one. */
    method ClearPools(names: set<string>, watcher: PoolWatcher) returns (ok: bool, ghost clears: seq<Directive>)
      requires names <= pools.Keys
      modifies this, watcher
      ensures ok
      ensures View() == Cleared(old(View()), names)
      ensures watcher.log == old(watcher.log) + clears
      ensures IsClearing(old(View()), names, clears)
    {
      ghost var before := View();
      clears := [];
      var todo := names;
      while todo != {}
        invariant todo <= names
        invariant View() == Cleared(before, names - todo)
        invariant watcher.log == old(watcher.log) + clears
        invariant IsClearing(before, names - todo, clears)
        decreases todo
      {
        var p :| p in todo;
        var known := ClearWorkerCount(p, watcher);
        assert known;
        ClearingGrows(before, names - todo, clears, p);
        clears := clears + [ClearDirective(before, p)];
        assert names - (todo - {p}) == (names - todo) + {p};
        todo := todo - {p};
      }
      ok := true;
    }

    method ClearAllWorkerCounts(watcher: PoolWatcher) returns (ok: bool, ghost clears: seq<Directive>)
      modifies this, watcher
      ensures ok
      ensures View() == Cleared(old(View()), old(pools.Keys)) && Zeroed(old(View()), View(), old(pools.Keys))
      ensures watcher.log == old(watcher.log) + clears
      ensures IsClearing(old(View()), old(pools.Keys), clears)
      ensures forall d :: d in clears ==> d.count == 0 && Fits(d.data, old(View()), d.pool)
    {
      ok, clears := ClearPools(pools.Keys, watcher);
    }

    /** `this` supersedes `previous`: clear what is outdated, then announce every pool. */
    method Supersede(previous: DriveshaftConfig, watcher: PoolWatcher)
      returns (ok: bool, ghost clears: seq<Directive>, ghost news: seq<Directive>)
      modifies previous, watcher
      ensures ok
      ensures IsSupersede(old(previous.View()), old(View()), clears, news)
      ensures watcher.log == old(watcher.log) + clears + news
      ensures previous.View() == Cleared(old(previous.View()), Outdated(old(previous.View()), old(View())))
      ensures Zeroed(old(previous.View()), previous.View(), Pools(clears))
      ensures View() == old(View())
      ensures forall d :: d in clears ==> d.count == 0 && Fits(d.data, old(previous.View()), d.pool)
      ensures forall d :: d in news ==> Fits(d.data, View(), d.pool) && d.count == pools[d.pool].workerCount
    {
      ghost var mine := View();
      var off, _ := previous.Compare(this);
      ok, clears := previous.ClearPools(off, watcher);
      assert Cleared(mine, {}).pools == mine.pools;
      news := [];
      ghost var sent := watcher.log;
      var todo := pools.Keys;
      while todo != {}
        invariant todo <= pools.Keys && View() == mine
        invariant watcher.log == sent + news
        invariant IsAnnouncing(mine.(pools := mine.pools - todo), news)
        invariant previous.View() == Cleared(old(previous.View()), off)
        decreases todo
      {
        var p :| p in todo;
        watcher.Inform(Directive(pools[p].workerCount, p, WorkData(servers, pools[p].jobs, pools[p].uri)));
        AnnouncingGrows(mine, todo, news, p);
        news := news + [DirectiveFor(mine, p)];
        todo := todo - {p};
      }
      assert mine.pools - todo == mine.pools;
    }
  }

  lemma AnnouncingGrows(c: Config, todo: set<string>, ds: seq<Directive>, pool: string)
    requires pool in c.pools && pool in todo && IsAnnouncing(c.(pools := c.pools - todo), ds)
    ensures IsAnnouncing(c.(pools := c.pools - (todo - {pool})), ds + [DirectiveFor(c, pool)])
  {
    var d := DirectiveFor(c, pool);
    assert forall x :: x in ds + [d] <==> x in ds || x == d;
    assert Pools(ds + [d]) == Pools(ds) + {pool};
    assert (c.pools - (todo - {pool})).Keys == (c.pools - todo).Keys + {pool};
    forall i | 0 <= i < |ds|
      ensures ds[i].pool != pool
    {
      assert ds[i].pool in Pools(ds);
    }
  }

  lemma ClearingGrows(c: Config, names: set<string>, ds: seq<Directive>, pool: string)
    requires names <= c.pools.Keys && pool in c.pools && pool !in names && IsClearing(c, names, ds)
    ensures IsClearing(c, names + {pool}, ds + [ClearDirective(c, pool)])
    ensures Cleared(Cleared(c, names), {pool}) == Cleared(c, names + {pool})
    ensures ClearDirective(Cleared(c, names), pool) == ClearDirective(c, pool)
  {
    var d := ClearDirective(c, pool);
    assert forall x :: x in ds + [d] <==> x in ds || x == d;
    assert Pools(ds + [d]) == Pools(ds) + {pool};
    forall i | 0 <= i < |ds|
      ensures ds[i].pool != pool
    {
      assert ds[i].pool in Pools(ds);
    }
  }

  /** Any set of pools of a configuration can be cleared. */
  lemma {:induction false} ClearingExists(c: Config, pools: set<string>) returns (ds: seq<Directive>)
    requires pools <= c.pools.Keys
    ensures IsClearing(c, pools, ds)
    decreases |pools|
  {
    if pools == {} {
      ds := [];
    } else {
      var p :| p in pools;
      var rest := ClearingExists(c, pools - {p});
      ClearingGrows(c, pools - {p}, rest, p);
      assert pools - {p} + {p} == pools;
      ds := rest + [ClearDirective(c, p)];
    }
  }

  /** And any configuration can be announced. */
  lemma {:induction false} AnnouncingExists(c: Config, todo: set<string>) returns (ds: seq<Directive>)
    requires todo <= c.pools.Keys
    ensures IsAnnouncing(c.(pools := c.pools - todo), ds)
    decreases |c.pools.Keys - todo|
  {
    if c.pools.Keys - todo == {} {
      assert (c.pools - todo).Keys == {};
      ds := [];
    } else {
      var p :| p in c.pools.Keys - todo;
      var rest := AnnouncingExists(c, todo + {p});
      AnnouncingGrows(c, todo + {p}, rest, p);
      assert todo + {p} - {p} == todo;
      ds := rest + [DirectiveFor(c, p)];
    }
  }

  /** So every configuration can supersede every other. */
  lemma SupersedeExists(a: Config, b: Config) returns (clears: seq<Directive>, news: seq<Directive>)
    ensures IsSupersede(a, b, clears, news)
  {
    clears := ClearingExists(a, Outdated(a, b));
    news := AnnouncingExists(b, {});
    assert b.pools - {} == b.pools;
  }
}
