/**
 The thread registry: two redundant indexes over the registered threads, one from thread
 identifiers to records and one from pool names to sets of identifiers. Every method of the
 original runs under one mutex, so each is a single atomic step; its effect is given here as a
 function on values, used both by the class below and by the protocol's transition system.
 */
module Registry {
  import opened Common

  type Tid = nat

  datatype ThreadData = ThreadData(pool: string, shouldShutdown: bool, state: string)

  datatype RegistryState = RegistryState(threads: map<Tid, ThreadData>, store: map<string, set<Tid>>)

  /** The notes that a thread leaves in its record when it registers and when it has no job. */
  const STARTING_NOTE := "Starting up"
  const IDLE_NOTE := "Waiting for work"

  const EMPTY_REGISTRY := RegistryState(map[], map[])

  /** The identifiers filed under a pool; a pool never mentioned has none. */
  function Members(r: RegistryState, pool: string): set<Tid> {
    if pool in r.store then r.store[pool] else {}
  }

  /** The members of a pool not yet asked to shut down. */
  function Unmarked(r: RegistryState, pool: string): set<Tid> {
    set t | t in Members(r, pool) && t in r.threads && !r.threads[t].shouldShutdown
  }

  /** Looking a pool up with `operator[]` files an empty set under a name not seen before. */
  function Touch(r: RegistryState, pool: string): RegistryState {
    r.(store := r.store[pool := Members(r, pool)])
  }

  /** `None` stands for a failed assertion, which ends the process. */
  function Register(r: RegistryState, pool: string, tid: Tid): Option<RegistryState> {
    if tid in Members(r, pool) || tid in r.threads then None
    else Some(RegistryState(r.threads[tid := ThreadData(pool, false, STARTING_NOTE)],
                            r.store[pool := Members(r, pool) + {tid}]))
  }

  function Unregister(r: RegistryState, pool: string, tid: Tid): Option<RegistryState> {
    if tid !in Members(r, pool) || tid !in r.threads then None
    else Some(RegistryState(r.threads - {tid}, r.store[pool := Members(r, pool) - {tid}]))
  }

  function SetState(r: RegistryState, tid: Tid, state: string): Option<RegistryState> {
    if tid !in r.threads then None
    else Some(r.(threads := r.threads[tid := r.threads[tid].(state := state)]))
  }

  /** The count as the caller sees it: a `size_t` narrowed to 32 bits. */
  function PoolCount(r: RegistryState, pool: string): uint32 {
    |Members(r, pool)| % UINT32_MODULUS
  }

  function Mark(r: RegistryState, marks: set<Tid>): RegistryState {
    r.(threads := map t | t in r.threads ::
         if t in marks then r.threads[t].(shouldShutdown := true) else r.threads[t])
  }

  /**
   How many marks end the walk. The counter is compared after each increment, so a request for
   none ends only when the 32-bit counter comes round to zero: it marks everyone.
   */
  function Quota(count: uint32): nat {
    if count == 0 then UINT32_MODULUS else count
  }

  /**
   The sets of threads that a request to stop `count` members may mark. The original walks the
   pool in identifier order; any order is allowed here.
   */
  ghost predicate ShutdownChoice(r: RegistryState, pool: string, count: uint32, marks: set<Tid>) {
    && marks <= Unmarked(r, pool)
    && |marks| == Min(Quota(count), |Unmarked(r, pool)|)
  }

  /** The two indexes describe the same relation between threads and pools. */
  ghost predicate Agree(r: RegistryState) {
    && (forall t :: t in r.threads ==> t in Members(r, r.threads[t].pool))
    && (forall p, t :: p in r.store && t in r.store[p] ==> t in r.threads && r.threads[t].pool == p)
  }

  lemma MembersAgree(r: RegistryState, pool: string, tid: Tid)
    requires Agree(r)
    ensures tid in Members(r, pool) <==> tid in r.threads && r.threads[tid].pool == pool
  {
  }

  lemma AgreeRegister(r: RegistryState, pool: string, tid: Tid)
    requires Agree(r)
    ensures Register(r, pool, tid).Some? <==> tid !in r.threads
    ensures Register(r, pool, tid).Some? ==>
              var r' := Register(r, pool, tid).value;
              && Agree(r')
              && (forall p :: Members(r', p) == if p == pool then Members(r, p) + {tid} else Members(r, p))
              && r'.threads == r.threads[tid := ThreadData(pool, false, "Starting up")]
  {
    MembersAgree(r, pool, tid);
  }

  lemma AgreeUnregister(r: RegistryState, pool: string, tid: Tid)
    requires Agree(r)
    ensures Unregister(r, pool, tid).Some? <==> tid in r.threads && r.threads[tid].pool == pool
    ensures Unregister(r, pool, tid).Some? ==>
              var r' := Unregister(r, pool, tid).value;
              && Agree(r')
              && forall p :: Members(r', p) == if p == pool then Members(r, p) - {tid} else Members(r, p)
  {
    MembersAgree(r, pool, tid);
  }

  lemma AgreeSetState(r: RegistryState, tid: Tid, state: string)
    requires Agree(r) && tid in r.threads
    ensures Agree(SetState(r, tid, state).value)
    ensures forall p :: Members(SetState(r, tid, state).value, p) == Members(r, p)
  {
  }

  lemma AgreeTouch(r: RegistryState, pool: string)
    requires Agree(r)
    ensures Agree(Touch(r, pool))
    ensures forall p :: Members(Touch(r, pool), p) == Members(r, p)
  {
  }

  lemma AgreeMark(r: RegistryState, marks: set<Tid>)
    requires Agree(r)
    ensures Agree(Mark(r, marks))
    ensures forall p :: Members(Mark(r, marks), p) == Members(r, p)
    ensures forall p :: Unmarked(Mark(r, marks), p) == Unmarked(r, p) - marks
  {
  }

  /** How many identifiers are filed in all, pool by pool. */
  ghost function StoreSize(store: map<string, set<Tid>>): nat
    decreases |store|
  {
    if store == map[] then 0
    else
      var p :| p in store;
      |store[p]| + StoreSize(store - {p})
  }

  /** Every identifier filed under some pool. */
  ghost function Filed(store: map<string, set<Tid>>): set<Tid> {
    set p, t | p in store && t in store[p] :: t
  }

  ghost predicate Disjoint(store: map<string, set<Tid>>) {
    forall p, q, t :: p in store && q in store && t in store[p] && t in store[q] ==> p == q
  }

  lemma FiledSplit(store: map<string, set<Tid>>, p: string)
    requires Disjoint(store) && p in store
    ensures Disjoint(store - {p})
    ensures |Filed(store)| == |store[p]| + |Filed(store - {p})|
  {
    var rest := store - {p};
    forall t
      ensures t in Filed(store) <==> t in store[p] || t in Filed(rest)
    {
      if t in Filed(store) && t !in store[p] {
        var q :| q in store && t in store[q];
        assert q in rest && t in rest[q];
      }
      if t in Filed(rest) {
        var q :| q in rest && t in rest[q];
        assert q in store && t in store[q];
      }
    }
    assert Filed(store) == store[p] + Filed(store - {p});
    assert store[p] !! Filed(store - {p});
  }

  lemma {:induction false} DisjointStoreSize(store: map<string, set<Tid>>)
    requires Disjoint(store)
    ensures StoreSize(store) == |Filed(store)|
    decreases |store|
  {
    if store == map[] {
      assert Filed(store) == {};
    } else {
      var p :| p in store && StoreSize(store) == |store[p]| + StoreSize(store - {p});
      FiledSplit(store, p);
      DisjointStoreSize(store - {p});
    }
  }

  /** Agreeing indexes split the registered threads into disjoint pools whose sizes add up. */
  lemma IndexesPartition(r: RegistryState)
    requires Agree(r)
    ensures Disjoint(r.store)
    ensures Filed(r.store) == r.threads.Keys
    ensures StoreSize(r.store) == |r.threads|
  {
    forall t | t in r.threads
      ensures t in Filed(r.store)
    {
      assert t in r.store[r.threads[t].pool];
    }
    assert Filed(r.store) == r.threads.Keys;
    forall p, q, t | p in r.store && q in r.store && t in r.store[p] && t in r.store[q]
      ensures p == q
    {
      assert r.threads[t].pool == p && r.threads[t].pool == q;
    }
    DisjointStoreSize(r.store);
  }

  /** What a request to stop `count` members leaves behind, in every pool. */
  lemma ShutdownEffect(r: RegistryState, pool: string, count: uint32, marks: set<Tid>)
    requires Agree(r) && ShutdownChoice(r, pool, count, marks)
    ensures |Unmarked(Mark(r, marks), pool)| == |Unmarked(r, pool)| - Min(Quota(count), |Unmarked(r, pool)|)
    ensures |Unmarked(r, pool)| <= Quota(count) ==> Unmarked(Mark(r, marks), pool) == {}
    ensures forall p :: p != pool ==> Unmarked(Mark(r, marks), p) == Unmarked(r, p)
    ensures forall t :: t in r.threads && r.threads[t].shouldShutdown ==>
                          Mark(r, marks).threads[t].shouldShutdown
  {
    AgreeMark(r, marks);
    SubsetCardinality(marks, Unmarked(r, pool));
    assert |Unmarked(r, pool) - marks| == |Unmarked(r, pool)| - |marks|;
    forall p | p != pool
      ensures Unmarked(r, p) - marks == Unmarked(r, p)
    {
      assert Unmarked(r, p) !! marks;
    }
  }

  /** The walk ends with the pool exhausted or the quota met. */
  lemma WalkEnds(all: set<Tid>, marks: set<Tid>, count: uint32)
    requires marks <= all && |marks| <= Quota(count)
    requires marks == all || |marks| == Quota(count)
    ensures |marks| == Min(Quota(count), |all|)
    ensures |marks| % UINT32_MODULUS == count <==> |all| >= Quota(count) || (count == 0 && all == {})
  {
    SubsetCardinality(marks, all);
  }

  /** `todo` is the part of the pool still to visit and `marks` the threads marked so far. */
  ghost predicate WalkInvariant(before: RegistryState, pool: string, todo: set<Tid>, marks: set<Tid>,
                                now: RegistryState)
  {
    && pool in before.store && todo <= before.store[pool]
    && marks <= Unmarked(before, pool) - todo
    && Unmarked(before, pool) - todo <= marks
    && now == Mark(before, marks)
  }

  lemma WalkStep(before: RegistryState, pool: string, todo: set<Tid>, marks: set<Tid>,
                 now: RegistryState, tid: Tid)
    requires WalkInvariant(before, pool, todo, marks, now) && tid in todo && tid in now.threads
    ensures now.threads[tid] == before.threads[tid]
    ensures now.threads[tid].shouldShutdown ==> WalkInvariant(before, pool, todo - {tid}, marks, now)
    ensures !now.threads[tid].shouldShutdown ==>
              && |marks + {tid}| == |marks| + 1
              && WalkInvariant(before, pool, todo - {tid}, marks + {tid},
                               now.(threads := now.threads[tid := now.threads[tid].(shouldShutdown := true)]))
  {
  }

  class ThreadRegistry {
    var threads: map<Tid, ThreadData>
    var store: map<string, set<Tid>>

    function View(): RegistryState
      reads this
    {
      RegistryState(threads, store)
    }

    constructor ()
      ensures View() == EMPTY_REGISTRY
    {
      threads, store := map[], map[];
    }

    /** The destructor's assertion: no thread may still be registered. */
    method Destroy() returns (ok: bool)
      ensures ok <==> threads.Keys == {}
    {
      ok := |threads| == 0;
      assert ok ==> threads == map[];
    }

    method RegisterThread(pool: string, tid: Tid) returns (ok: bool)
      modifies this
      ensures ok <==> tid !in old(threads) && !(pool in old(store) && tid in old(store)[pool])
      ensures ok <==> Register(old(View()), pool, tid).Some?
      ensures ok ==> threads == old(threads)[tid := ThreadData(pool, false, "Starting up")]
      ensures ok ==> View() == Register(old(View()), pool, tid).value
      ensures !ok ==> threads == old(threads) && store == old(store)[pool := Members(old(View()), pool) + {tid}]
    {
      var poolThreads := if pool in store then store[pool] else {};
      store := store[pool := poolThreads];
      if tid in poolThreads {
        assert poolThreads == poolThreads + {tid};
        return false;
      }
      store := store[pool := poolThreads + {tid}];
      if tid in threads {
        return false;
      }
      threads := threads[tid := ThreadData(pool, false, STARTING_NOTE)];
      return true;
    }

    method UnregisterThread(pool: string, tid: Tid) returns (ok: bool)
      modifies this
      ensures ok <==> tid in old(threads) && pool in old(store) && tid in old(store)[pool]
      ensures ok <==> Unregister(old(View()), pool, tid).Some?
      ensures ok ==> threads == old(threads) - {tid} && pool in store && tid !in store[pool]
      ensures ok ==> View() == Unregister(old(View()), pool, tid).value
      ensures !ok ==> threads == old(threads) && store == old(store)[pool := Members(old(View()), pool) - {tid}]
    {
      var poolThreads := if pool in store then store[pool] else {};
      store := store[pool := poolThreads];
      if tid !in poolThreads {
        assert poolThreads == poolThreads - {tid};
        return false;
      }
      store := store[pool := poolThreads - {tid}];
      if tid !in threads {
        return false;
      }
      threads := threads - {tid};
      return true;
    }

    method CountPool(pool: string) returns (count: uint32)
      modifies this
      ensures count == (if pool in old(store) then |old(store)[pool]| else 0) % 0x1_0000_0000
      ensures count == PoolCount(old(View()), pool)
      ensures View() == Touch(old(View()), pool)
    {
      store := store[pool := if pool in store then store[pool] else {}];
      count := |store[pool]| % UINT32_MODULUS;
    }

    /** `enough` is the original's result; `!ok` is its failed assertion. */
    method SendShutdown(pool: string, count: uint32) returns (ok: bool, enough: bool, ghost marks: set<Tid>)
      modifies this
      ensures Agree(old(View())) ==> ok
      ensures ok ==> ShutdownChoice(old(View()), pool, count, marks)
      ensures ok && count > 0 ==> |marks| == Min(count, |Unmarked(old(View()), pool)|)
      ensures ok && count == 0 && |Unmarked(old(View()), pool)| <= 0xFFFF_FFFF ==>
                marks == Unmarked(old(View()), pool)
      ensures ok ==> View() == Mark(Touch(old(View()), pool), marks)
      ensures ok ==> forall t :: t in old(threads) ==>
                && t in threads && threads[t].pool == old(threads)[t].pool && threads[t].state == old(threads)[t].state
                && (threads[t].shouldShutdown <==> t in marks || old(threads)[t].shouldShutdown)
      ensures ok ==> (enough <==> |Unmarked(old(View()), pool)| >= Quota(count)
                                  || (count == 0 && Unmarked(old(View()), pool) == {}))
    {
      ghost var before := View();
      store := store[pool := if pool in store then store[pool] else {}];
      ghost var touched := View();
      assert Members(touched, pool) == Members(before, pool);
      ok, enough, marks := MarkSome(pool, count);
      if ok && count == 0 && |Unmarked(before, pool)| < UINT32_MODULUS {
        SubsetCardinality(marks, Unmarked(before, pool));
      }
    }

    /** The walk over the pool, with its counter and early exit. */
    method MarkSome(pool: string, count: uint32) returns (ok: bool, enough: bool, ghost marks: set<Tid>)
      requires pool in store
      modifies this`threads
      ensures (forall t :: t in store[pool] ==> t in old(threads)) ==> ok
      ensures ok ==> ShutdownChoice(old(View()), pool, count, marks)
      ensures ok ==> threads == Mark(old(View()), marks).threads
      ensures ok ==> (enough <==> |Unmarked(old(View()), pool)| >= Quota(count)
                                  || (count == 0 && Unmarked(old(View()), pool) == {}))
    {
      ghost var before := View();
      ghost var all := Unmarked(before, pool);
      var todo := store[pool];
      var sent: uint32 := 0;
      marks := {};
      while todo != {}
        invariant WalkInvariant(before, pool, todo, marks, View())
        invariant sent == |marks| < Quota(count)
        decreases todo
      {
        var tid :| tid in todo;
        if tid !in threads {
          return false, false, marks;
        }
        WalkStep(before, pool, todo, marks, View(), tid);
        todo := todo - {tid};
        if !threads[tid].shouldShutdown {
          threads := threads[tid := threads[tid].(shouldShutdown := true)];
          marks := marks + {tid};
          sent := (sent + 1) % UINT32_MODULUS;
          if sent == count {
            WalkEnds(all, marks, count);
            return true, true, marks;
          }
        }
      }
      WalkEnds(all, marks, count);
      return true, sent == count, marks;
    }

    method ShouldShutdown(tid: Tid) returns (ok: bool, stop: bool)
      ensures ok <==> tid in threads
      ensures ok ==> stop == threads[tid].shouldShutdown
    {
      if tid !in threads {
        return false, false;
      }
      return true, threads[tid].shouldShutdown;
    }

    method SetThreadState(tid: Tid, state: string) returns (ok: bool)
      modifies this
      ensures ok <==> tid in old(threads)
      ensures ok <==> SetState(old(View()), tid, state).Some?
      ensures ok ==> tid in threads && threads[tid].state == state
      ensures View() == if ok then SetState(old(View()), tid, state).value else old(View())
    {
      ok := tid in threads;
      if ok {
        threads := threads[tid := threads[tid].(state := state)];
      }
    }
  }
}
