/**
 The loop that each worker thread runs: check for shutdown, let the client run, and start over
 after a retriable exception, a bounded number of times.
 */
module ThreadLoop {
  import opened Client

  const MAX_ATTEMPTS: nat := 5

  /** One turn of the loop: what the shutdown check says and, if it says go on, how `run` ends. */
  datatype Round = Round(stop: bool, result: RunResult)

  datatype LoopEnd = Stopped | Exceeded | Abandoned | StillRunning

  ghost predicate Retries(r: Round) {
    !r.stop && r.result == Threw(true)
  }

  ghost predicate GoesOn(r: Round) {
    !r.stop && r.result == Returned
  }

  ghost function RetryCount(rounds: seq<Round>): nat {
    if rounds == [] then 0 else (if Retries(rounds[0]) then 1 else 0) + RetryCount(rounds[1..])
  }

  lemma {:induction false} RetryCountConcat(xs: seq<Round>, ys: seq<Round>)
    ensures RetryCount(xs + ys) == RetryCount(xs) + RetryCount(ys)
  {
    if xs == [] {
      assert xs + ys == ys;
    } else {
      assert (xs + ys)[1..] == xs[1..] + ys;
      RetryCountConcat(xs[1..], ys);
    }
  }

  lemma {:induction false} NoRetries(rounds: seq<Round>)
    requires forall r :: r in rounds ==> !Retries(r)
    ensures RetryCount(rounds) == 0
  {
    if rounds != [] {
      NoRetries(rounds[1..]);
    }
  }

  /** Every turn taken before the last was completed or retried. */
  ghost predicate Uninterrupted(rounds: seq<Round>) {
    forall i :: 0 <= i < |rounds| - 1 ==> GoesOn(rounds[i]) || Retries(rounds[i])
  }

  /** How the last turn taken explains the end of the loop. */
  ghost predicate Explains(end: LoopEnd, taken: seq<Round>, all: seq<Round>) {
    match end
    case Stopped => taken != [] && taken[|taken| - 1].stop
    case Abandoned => taken != [] && !taken[|taken| - 1].stop && taken[|taken| - 1].result in {Threw(false), Crashed}
    case Exceeded => taken != [] && Retries(taken[|taken| - 1])
    case StillRunning =>
      || taken == all
      || (taken != [] && !taken[|taken| - 1].stop && taken[|taken| - 1].result == Blocked)
  }

  /**
   The loop with its recursive retry. `tries` counts the entries into the guarded loop and `used`
   the turns taken.
   */
  method Run(attempts: nat, rounds: seq<Round>) returns (end: LoopEnd, tries: nat, used: nat)
    ensures attempts > MAX_ATTEMPTS ==> end == Exceeded && tries == 0 && used == 0
    ensures attempts <= MAX_ATTEMPTS ==> 1 <= tries <= MAX_ATTEMPTS + 1 - attempts
    ensures used <= |rounds|
    ensures Uninterrupted(rounds[..used])
    ensures attempts <= MAX_ATTEMPTS ==> Explains(end, rounds[..used], rounds)
    ensures end == Exceeded ==>
              tries == RetryCount(rounds[..used]) && (tries == MAX_ATTEMPTS + 1 - attempts || tries == 0)
    ensures end != Exceeded ==> tries == RetryCount(rounds[..used]) + 1
    ensures attempts == 0 ==> 1 <= tries <= 6 && (end == Exceeded <==> RetryCount(rounds[..used]) == 6)
    decreases if attempts <= MAX_ATTEMPTS then MAX_ATTEMPTS + 1 - attempts else 0
  {
    if attempts > MAX_ATTEMPTS {
      return Exceeded, 0, 0;
    }
    used := 0;
    while used < |rounds|
      invariant used <= |rounds|
      invariant forall r :: r in rounds[..used] ==> GoesOn(r)
    {
      var round := rounds[used];
      ghost var before := rounds[..used];
      NoRetries(before);
      RetryCountConcat(before, [round]);
      assert rounds[..used + 1] == before + [round];
      used := used + 1;
      if round.stop {
        return Stopped, 1, used;
      }
      if round.result == Threw(true) {
        var rest := rounds[used..];
        var more;
        end, tries, more := Run(attempts + 1, rest);
        tries := tries + 1;
        RetryCountConcat(rounds[..used], rest[..more]);
        assert rounds[..used + more] == rounds[..used] + rest[..more];
        used := used + more;
        return;
      }
      if round.result == Blocked {
        return StillRunning, 1, used;
      }
      if round.result != Returned {
        return Abandoned, 1, used;
      }
    }
    NoRetries(rounds[..used]);
    assert rounds[..used] == rounds;
    return StillRunning, 1, used;
  }

  /** The rounds that a real client gives the loop, whatever the library replies. */
  ghost predicate FromClient(rounds: seq<Round>, c: ClientView, pool: string, scripts: seq<seq<Reply>>)
    decreases rounds
  {
    rounds != [] ==>
      if rounds[0].stop then true
      else
        && scripts != []
        && rounds[0].result == RunFrom(c, pool, scripts[0]).result
        && (rounds[0].result == Returned ==>
              FromClient(rounds[1..], RunFrom(c, pool, scripts[0]).client, pool, scripts[1..]))
  }

  lemma {:induction false} ClientNeverRetries(rounds: seq<Round>, c: ClientView, pool: string,
                                              scripts: seq<seq<Reply>>, used: nat)
    requires c.state != Init && FromClient(rounds, c, pool, scripts)
    requires used <= |rounds| && Uninterrupted(rounds[..used])
    ensures RetryCount(rounds[..used]) == 0
    decreases rounds
  {
    if used > 0 {
      var taken := rounds[..used];
      assert taken[0] == rounds[0];
      if !rounds[0].stop {
        RunDiscipline(c, pool, scripts[0]);
      }
      assert taken[1..] == rounds[1..][..used - 1];
      if used > 1 {
        assert GoesOn(taken[0]);
        assert Uninterrupted(taken[1..]);
        ClientNeverRetries(rounds[1..], RunFrom(c, pool, scripts[0]).client, pool, scripts[1..], used - 1);
      }
    }
  }

  /** With the real client the guarded loop is entered exactly once. */
  method RunClient(rounds: seq<Round>, ghost c: ClientView, ghost pool: string, ghost scripts: seq<seq<Reply>>)
    returns (end: LoopEnd, tries: nat)
    requires c.state != Init && FromClient(rounds, c, pool, scripts)
    ensures tries == 1 && end != Exceeded
  {
    var used;
    end, tries, used := Run(0, rounds);
    ClientNeverRetries(rounds, c, pool, scripts, used);
  }
}
