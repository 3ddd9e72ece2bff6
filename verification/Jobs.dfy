/**
 Processing one job over HTTP, and what the counters say about any sequence of jobs. The curl
 options and form fields are one choice, "set up" or not; the rest of the outcomes are the
 original's own exits.
 */
module Jobs {
  import opened Metrics

  datatype PerformResult = PerformOk | AbortedByCallback | OtherError

  datatype Body = Unparsable | Malformed | Answer(code: nat, text: string)

  /** What curl and the endpoint would reply, question by question. */
  datatype Exchange = Exchange(handle: bool, setup: bool, perform: PerformResult, status: nat, body: Body)

  datatype Job = Job(pool: string, fn: string, exchange: Exchange)

  /** What a job reports to the library: the work-fail code, or the number that the endpoint sent. */
  datatype JobCode = FailedJob | FromEndpoint(n: nat)

  /** How a job ends: the first question with a wrong reply decides. */
  datatype Outcome = Failed | TimedOut | HttpError(status: nat) | Succeeded(code: nat, text: string)

  function OutcomeOf(x: Exchange): Outcome {
    if !x.handle || !x.setup || x.perform.OtherError? then Failed
    else if x.perform.AbortedByCallback? then TimedOut
    else if x.status != 200 then HttpError(x.status % UINT16_MODULUS)
    else if !x.body.Answer? then Failed
    else Succeeded(x.body.code, x.body.text)
  }

  /** The transfer ran and the progress callback aborted it. */
  ghost predicate Expires(x: Exchange) {
    x.handle && x.setup && x.perform == AbortedByCallback
  }

  /** The endpoint answered with another status than 200. */
  ghost predicate Refused(x: Exchange) {
    x.handle && x.setup && x.perform == PerformOk && x.status != 200
  }

  ghost function RefusedWith(shown: nat): Exchange -> bool {
    (x: Exchange) => Refused(x) && x.status % 0x1_0000 == shown
  }

  /** It answered with 200 and a well-formed answer. */
  ghost predicate Answers(x: Exchange) {
    x.handle && x.setup && x.perform == PerformOk && x.status == 200 && x.body.Answer?
  }

  /** Anything else: no handle, no set-up, another error of curl, or no proper answer. */
  ghost predicate Breaks(x: Exchange) {
    || !x.handle || !x.setup || x.perform == OtherError
    || (x.perform == PerformOk && x.status == 200 && !x.body.Answer?)
  }

  ghost predicate Fails(x: Exchange) {
    Expires(x) || Refused(x) || Breaks(x)
  }

  /** What one job does to the counters, label by label, in terms of its exchange. */
  ghost predicate Counted(c: Counters, c': Counters, pool: string, fn: string, x: Exchange) {
    && (forall p, f :: Get(c'.successes, (p, f)) ==
          Get(c.successes, (p, f)) + if p == pool && f == fn && Answers(x) then 1 else 0)
    && (forall p, f :: Get(c'.errors, (p, f)) ==
          Get(c.errors, (p, f)) + if p == pool && f == fn && Fails(x) then 1 else 0)
    && (forall p, f :: Get(c'.timeouts, (p, f)) ==
          Get(c.timeouts, (p, f)) + if p == pool && f == fn && Expires(x) then 1 else 0)
    && (forall p, f, shown :: Get(c'.http, (p, f, shown)) ==
          Get(c.http, (p, f, shown)) + if p == pool && f == fn && RefusedWith(shown)(x) then 1 else 0)
  }

  /** An exchange ends in one way only, and that decides the outcome with its status or answer. */
  lemma OutcomeDecided(x: Exchange)
    ensures Answers(x) <==> !Fails(x)
    ensures !(Expires(x) && Refused(x)) && !(Expires(x) && Breaks(x)) && !(Refused(x) && Breaks(x))
    ensures Answers(x) ==> OutcomeOf(x) == Succeeded(x.body.code, x.body.text)
    ensures Expires(x) ==> OutcomeOf(x) == TimedOut
    ensures Refused(x) ==> OutcomeOf(x) == HttpError(x.status % 0x1_0000)
    ensures Breaks(x) ==> OutcomeOf(x) == Failed
  {
  }

  lemma Bumped<K>(m: map<K, int>, k: K, l: K)
    ensures Get(Bump(m, k), l) == Get(m, l) + if l == k then 1 else 0
  {
  }

  lemma JobCounted(c: Counters, j: Job)
    ensures Counted(c, CountJob(c, j), j.pool, j.fn, j.exchange)
  {
    var c', k, x := CountJob(c, j), (j.pool, j.fn), j.exchange;
    OutcomeDecided(x);
    forall p, f
      ensures Get(c'.successes, (p, f)) == Get(c.successes, (p, f)) + if (p, f) == k && Answers(x) then 1 else 0
      ensures Get(c'.errors, (p, f)) == Get(c.errors, (p, f)) + if (p, f) == k && Fails(x) then 1 else 0
      ensures Get(c'.timeouts, (p, f)) == Get(c.timeouts, (p, f)) + if (p, f) == k && Expires(x) then 1 else 0
    {
      Bumped(c.successes, k, (p, f));
      Bumped(c.errors, k, (p, f));
      Bumped(c.timeouts, k, (p, f));
    }
    forall p, f, shown
      ensures Get(c'.http, (p, f, shown)) ==
              Get(c.http, (p, f, shown)) + if (p, f) == k && RefusedWith(shown)(x) then 1 else 0
    {
      Bumped(c.http, (j.pool, j.fn, x.status % 0x1_0000), (p, f, shown));
    }
  }

  /** The jobs of a function whose exchange is of a kind. */
  ghost function Of(pool: string, fn: string, kind: Exchange -> bool): Job -> bool {
    (j: Job) => j.pool == pool && j.fn == fn && kind(j.exchange)
  }

  ghost function Tally(jobs: seq<Job>, which: Job -> bool): nat {
    if jobs == [] then 0 else (if which(jobs[0]) then 1 else 0) + Tally(jobs[1..], which)
  }

  lemma {:induction false} TallyOneMore(jobs: seq<Job>, j: Job, which: Job -> bool)
    ensures Tally(jobs + [j], which) == Tally(jobs, which) + if which(j) then 1 else 0
  {
    if jobs == [] {
      assert jobs + [j] == [j];
    } else {
      assert (jobs + [j])[1..] == jobs[1..] + [j];
      TallyOneMore(jobs[1..], j, which);
    }
  }

  /** Each job ends in exactly one way. */
  lemma {:induction false} TallySplits(jobs: seq<Job>, pool: string, fn: string)
    ensures Tally(jobs, Of(pool, fn, Fails)) ==
            Tally(jobs, Of(pool, fn, Expires)) + Tally(jobs, Of(pool, fn, Refused)) + Tally(jobs, Of(pool, fn, Breaks))
    ensures Tally(jobs, Of(pool, fn, Fails)) + Tally(jobs, Of(pool, fn, Answers)) == Processed(jobs, pool, fn)
  {
    if jobs != [] {
      OutcomeDecided(jobs[0].exchange);
      assert forall kind :: Of(pool, fn, kind)(jobs[0]) <==>
               jobs[0].pool == pool && jobs[0].fn == fn && kind(jobs[0].exchange);
      TallySplits(jobs[1..], pool, fn);
    }
  }

  /** The status label is a `uint16_t`. */
  const UINT16_MODULUS: nat := 0x1_0000

  function CountHttp(c: Counters, pool: string, fn: string, status: nat): Counters {
    c.(http := Bump(c.http, (pool, fn, status)))
  }

  function CountTimeout(c: Counters, pool: string, fn: string): Counters {
    c.(timeouts := Bump(c.timeouts, (pool, fn)))
  }

  function CountError(c: Counters, pool: string, fn: string): Counters {
    c.(errors := Bump(c.errors, (pool, fn)))
  }

  function CountSuccess(c: Counters, pool: string, fn: string): Counters {
    c.(successes := Bump(c.successes, (pool, fn)))
  }

  function CountJob(c: Counters, j: Job): Counters {
    match OutcomeOf(j.exchange)
    case Succeeded(_, _) => CountSuccess(c, j.pool, j.fn)
    case TimedOut => CountError(CountTimeout(c, j.pool, j.fn), j.pool, j.fn)
    case HttpError(status) => CountError(CountHttp(c, j.pool, j.fn, status), j.pool, j.fn)
    case Failed => CountError(c, j.pool, j.fn)
  }

  function CountJobs(c: Counters, jobs: seq<Job>): Counters
    decreases jobs
  {
    if jobs == [] then c else CountJobs(CountJob(c, jobs[0]), jobs[1..])
  }

  /** The HTTP errors of a function over the statuses below `limit`. */
  ghost function HttpErrors(http: map<(string, string, nat), int>, pool: string, fn: string, limit: nat): int {
    if limit == 0 then 0
    else Get(http, (pool, fn, limit - 1)) + HttpErrors(http, pool, fn, limit - 1)
  }

  lemma {:induction false} HttpErrorsBump(http: map<(string, string, nat), int>, pool: string, fn: string,
                                          key: (string, string, nat), limit: nat)
    ensures HttpErrors(Bump(http, key), pool, fn, limit) ==
            HttpErrors(http, pool, fn, limit) + if pool == key.0 && fn == key.1 && key.2 < limit then 1 else 0
  {
    if limit > 0 {
      HttpErrorsBump(http, pool, fn, key, limit - 1);
    }
  }

  /** What the counters say about a function of a pool, over all statuses. */
  datatype Totals = Totals(successes: int, errors: int, timeouts: int, http: int)

  ghost function Read(c: Counters, pool: string, fn: string): Totals {
    Totals(Get(c.successes, (pool, fn)), Get(c.errors, (pool, fn)), Get(c.timeouts, (pool, fn)),
           HttpErrors(c.http, pool, fn, UINT16_MODULUS))
  }

  lemma ReadCounts(c: Counters, pool: string, fn: string, pool': string, fn': string, status: nat)
    requires status < UINT16_MODULUS
    ensures var n := if pool == pool' && fn == fn' then 1 else 0;
            var t := Read(c, pool', fn');
            && Read(CountSuccess(c, pool, fn), pool', fn') == t.(successes := t.successes + n)
            && Read(CountError(c, pool, fn), pool', fn') == t.(errors := t.errors + n)
            && Read(CountTimeout(c, pool, fn), pool', fn') == t.(timeouts := t.timeouts + n)
            && Read(CountHttp(c, pool, fn, status), pool', fn') == t.(http := t.http + n)
  {
    HttpErrorsBump(c.http, pool', fn', (pool, fn, status), UINT16_MODULUS);
  }

  /** How many jobs of a function were processed. */
  ghost function Processed(jobs: seq<Job>, pool: string, fn: string): nat {
    if jobs == [] then 0
    else (if jobs[0].pool == pool && jobs[0].fn == fn then 1 else 0) + Processed(jobs[1..], pool, fn)
  }

  lemma CountJobReads(c: Counters, j: Job, pool: string, fn: string)
    ensures var n := if j.pool == pool && j.fn == fn then 1 else 0;
            var t, u := Read(c, pool, fn), Read(CountJob(c, j), pool, fn);
            var x := j.exchange;
            && u.successes == t.successes + (if Answers(x) then n else 0)
            && u.errors == t.errors + (if Fails(x) then n else 0)
            && u.timeouts == t.timeouts + (if Expires(x) then n else 0)
            && u.http == t.http + (if Refused(x) then n else 0)
  {
    OutcomeDecided(j.exchange);
    ReadCounts(c, j.pool, j.fn, pool, fn, 0);
    match OutcomeOf(j.exchange)
    case TimedOut =>
      ReadCounts(CountTimeout(c, j.pool, j.fn), j.pool, j.fn, pool, fn, 0);
    case HttpError(status) =>
      ReadCounts(c, j.pool, j.fn, pool, fn, status);
      ReadCounts(CountHttp(c, j.pool, j.fn, status), j.pool, j.fn, pool, fn, 0);
    case _ =>
  }

  /**
   Over any sequence of jobs, of any pools in any order: each counter has grown by the jobs that
   ended its way, so every job is a success or an error, and timeouts and HTTP errors are errors
   too, each counted once.
   */
  lemma {:induction false} JobAccounting(c: Counters, jobs: seq<Job>, pool: string, fn: string)
    ensures var t, u := Read(c, pool, fn), Read(CountJobs(c, jobs), pool, fn);
            && u.successes - t.successes == Tally(jobs, Of(pool, fn, Answers))
            && u.errors - t.errors == Tally(jobs, Of(pool, fn, Fails))
            && u.timeouts - t.timeouts == Tally(jobs, Of(pool, fn, Expires))
            && u.http - t.http == Tally(jobs, Of(pool, fn, Refused))
            && (u.successes - t.successes) + (u.errors - t.errors) == Processed(jobs, pool, fn)
            && (u.timeouts - t.timeouts) + (u.http - t.http) <= u.errors - t.errors
    decreases jobs
  {
    TallySplits(jobs, pool, fn);
    if jobs != [] {
      CountJobReads(c, jobs[0], pool, fn);
      JobAccounting(CountJob(c, jobs[0]), jobs[1..], pool, fn);
    }
  }
}
