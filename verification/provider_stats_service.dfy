/** The statistics service: a cached snapshot that only a successful computation
    replaces, and the background loop that computes once at startup and then every
    15 minutes until shutdown. */
module StatsService {
  import opened UsenetTypes
  import opened StatsAggregation

  /** What one computation sees: the events the query returns, or `None` when the
      computation throws (the query fails, or is cancelled by shutdown); `now` is the
      clock reading that fixes the window and `calculatedAt` the one stamped on the
      snapshot. */
  datatype Computation = Computation(fetched: Option<seq<StoredEvent>>, now: int, calculatedAt: int)

  /** The cache after one computation: a failed computation is caught and logged and
      publishes nothing. */
  function AfterComputation(cached: Option<ProviderStatsResponse>, c: Computation): (r: Option<ProviderStatsResponse>)
    ensures c.fetched.None? ==> r == cached
    ensures c.fetched.Some? ==> r.Some? && r.value.calculatedAt == c.calculatedAt
  {
    match c.fetched
    case None => cached
    case Some(events) => Some(CalculateStats(events, c.now, c.calculatedAt))
  }

  /** The cache after a sequence of computations, in order. */
  function AfterComputations(cached: Option<ProviderStatsResponse>, cs: seq<Computation>): Option<ProviderStatsResponse> {
    if cs == [] then cached
    else AfterComputation(AfterComputations(cached, cs[..|cs| - 1]), cs[|cs| - 1])
  }

  /** Computations that all fail leave the cache as it was. */
  lemma {:induction false} FailuresKeepSnapshot(cached: Option<ProviderStatsResponse>, cs: seq<Computation>)
    requires forall i :: 0 <= i < |cs| ==> cs[i].fetched.None?
    ensures AfterComputations(cached, cs) == cached
  {
    if cs != [] {
      FailuresKeepSnapshot(cached, cs[..|cs| - 1]);
    }
  }

  /** After computations that include a successful one, the cache holds the snapshot of
      the last successful one. */
  lemma {:induction false} CacheHoldsLastSuccess(cached: Option<ProviderStatsResponse>, cs: seq<Computation>, j: nat)
    requires j < |cs| && cs[j].fetched.Some?
    requires forall k :: j < k < |cs| ==> cs[k].fetched.None?
    ensures AfterComputations(cached, cs) == Some(CalculateStats(cs[j].fetched.value, cs[j].now, cs[j].calculatedAt))
    decreases |cs|
  {
    if j < |cs| - 1 {
      CacheHoldsLastSuccess(cached, cs[..|cs| - 1], j);
    }
  }

  /** Starting from no snapshot, the cache stays empty exactly as long as every
      computation has failed. */
  lemma {:induction false} CacheNullUntilFirstSuccess(cs: seq<Computation>)
    ensures AfterComputations(None, cs) == None <==> forall i :: 0 <= i < |cs| ==> cs[i].fetched.None?
  {
    if cs != [] {
      var init := cs[..|cs| - 1];
      CacheNullUntilFirstSuccess(init);
      assert forall i :: 0 <= i < |init| ==> init[i] == cs[i];
    }
  }

  /** How shutdown shows up in one round of the loop: not at all, at the loop's
      cancellation check, or while the loop waits. */
  datatype Shutdown = Running | StopBeforeWait | StopDuringWait

  /** One round of the loop: how shutdown shows up, and the computation the round runs
      if it gets that far. */
  datatype Round = Round(shutdown: Shutdown, computation: Computation)

  /** What the loop does, step by step. */
  datatype Step = Calculate | Wait(seconds: nat)

  /** How the observed run of the loop ends: the cancellation check ends it normally;
      a wait cut short by shutdown ends it with the cancellation exception, which the
      error handler's filter lets through; otherwise it is still running. */
  datatype LoopEnd = ShutdownObserved | WaitCancelled | StillRunning

  const FifteenMinutes: nat := 15 * 60

  /** The number of rounds that complete before shutdown shows up. */
  function Completed(rounds: seq<Round>): (n: nat)
    ensures n <= |rounds|
    ensures forall k :: 0 <= k < n ==> rounds[k].shutdown == Running
    ensures n < |rounds| ==> rounds[n].shutdown != Running
  {
    if rounds == [] || rounds[0].shutdown != Running then 0
    else 1 + Completed(rounds[1..])
  }

  function EndOf(rounds: seq<Round>): LoopEnd {
    var n := Completed(rounds);
    if n == |rounds| then StillRunning
    else if rounds[n].shutdown == StopBeforeWait then ShutdownObserved
    else WaitCancelled
  }

  function Computations(rounds: seq<Round>): (cs: seq<Computation>)
    ensures |cs| == |rounds|
    ensures forall k :: 0 <= k < |rounds| ==> cs[k] == rounds[k].computation
  {
    seq(|rounds|, k requires 0 <= k < |rounds| => rounds[k].computation)
  }

  lemma ComputationsStep(rounds: seq<Round>, i: nat)
    requires i < |rounds|
    ensures Computations(rounds[..i + 1]) == Computations(rounds[..i]) + [rounds[i].computation]
  {
  }

  lemma AfterComputationsStep(cached: Option<ProviderStatsResponse>, cs: seq<Computation>, c: Computation)
    ensures AfterComputations(cached, cs + [c]) == AfterComputation(AfterComputations(cached, cs), c)
  {
    assert (cs + [c])[..|cs|] == cs;
  }

  /** The cache after the first i + 1 rounds' computations. */
  lemma AfterRoundsStep(cached: Option<ProviderStatsResponse>, rounds: seq<Round>, i: nat)
    requires i < |rounds|
    ensures AfterComputations(cached, Computations(rounds[..i + 1]))
         == AfterComputation(AfterComputations(cached, Computations(rounds[..i])), rounds[i].computation)
  {
    ComputationsStep(rounds, i);
    AfterComputationsStep(cached, Computations(rounds[..i]), rounds[i].computation);
  }

  /** The rounds complete up to the first one in which shutdown shows up, and that
      round says how the loop ends. */
  lemma CompletedIs(rounds: seq<Round>, i: nat)
    requires i <= |rounds|
    requires forall k :: 0 <= k < i ==> rounds[k].shutdown == Running
    requires i < |rounds| ==> rounds[i].shutdown != Running
    ensures Completed(rounds) == i
    ensures EndOf(rounds) == if i == |rounds| then StillRunning
                             else if rounds[i].shutdown == StopBeforeWait then ShutdownObserved
                             else WaitCancelled
  {
  }

  /** `n` completed waits, each followed by a computation. */
  function Cycles(n: nat): seq<Step> {
    if n == 0 then [] else Cycles(n - 1) + [Wait(FifteenMinutes), Calculate]
  }

  /** The loop's steps: one computation at startup, then `n` completed rounds, then the
      wait that shutdown interrupted, if it was one. */
  function Schedule(n: nat, cancelledWait: bool): seq<Step> {
    [Calculate] + Cycles(n) + (if cancelledWait then [Wait(FifteenMinutes)] else [])
  }

  lemma {:induction false} CyclesAlternate(n: nat)
    ensures |Cycles(n)| == 2 * n
    ensures forall i :: 0 <= i < 2 * n ==> Cycles(n)[i] == if i % 2 == 0 then Wait(FifteenMinutes) else Calculate
  {
    if n > 0 {
      CyclesAlternate(n - 1);
    }
  }

  /** The loop computes first, then alternates 15-minute waits with computations; no
      other wait occurs. */
  lemma ScheduleAlternates(n: nat, cancelledWait: bool)
    ensures var s := Schedule(n, cancelledWait);
      && |s| == 1 + 2 * n + (if cancelledWait then 1 else 0)
      && (forall i :: 0 <= i < |s| ==> s[i] == if i % 2 == 0 then Calculate else Wait(FifteenMinutes))
  {
    CyclesAlternate(n);
  }

  /** The length of the error handler's back-off wait. */
  const OneMinute: nat := 60

  /** The schedule never holds the error handler's one-minute back-off wait. */
  lemma NoBackOffWait(n: nat, cancelledWait: bool)
    ensures Wait(OneMinute) !in Schedule(n, cancelledWait)
  {
    ScheduleAlternates(n, cancelledWait);
  }

  class ProviderStatsService {
    /** The last published snapshot; `None` until a computation succeeds. */
    var cachedStats: Option<ProviderStatsResponse>

    constructor ()
      ensures cachedStats == None
    {
      cachedStats := None;
    }

    method GetCachedStats() returns (stats: Option<ProviderStatsResponse>)
      ensures stats == cachedStats
    {
      stats := cachedStats;
    }

    /** One computation; it replaces the snapshot on success. A failure is caught and
        logged inside, so `threw`, whether an exception leaves the call, is never set. */
    method CalculateAndCacheStats(c: Computation) returns (threw: bool)
      modifies this
      ensures cachedStats == AfterComputation(old(cachedStats), c)
      ensures !threw
    {
      threw := false;
      match c.fetched {
        case None =>
        case Some(events) =>
          cachedStats := Some(CalculateStats(events, c.now, c.calculatedAt));
      }
    }

    /** One round of the loop once its cancellation check has passed: the try block is
        the 15-minute wait, which throws exactly when shutdown shows up during it, then a
        computation, which never throws. The error handler's filter admits an exception
        only while no shutdown is requested, so its one-minute back-off is never entered
        (the branch below is proved dead) and a thrown exception escapes the loop. */
    method RunRound(round: Round) returns (roundSteps: seq<Step>, escaped: bool)
      requires round.shutdown != StopBeforeWait
      modifies this
      ensures escaped <==> round.shutdown == StopDuringWait
      ensures roundSteps == if escaped then [Wait(FifteenMinutes)] else [Wait(FifteenMinutes), Calculate]
      ensures cachedStats == if escaped then old(cachedStats) else AfterComputation(old(cachedStats), round.computation)
    {
      // The try block: the wait, then the computation.
      var threw: bool;
      roundSteps := [Wait(FifteenMinutes)];
      if round.shutdown == StopDuringWait {
        threw := true;
      } else {
        threw := CalculateAndCacheStats(round.computation);
        roundSteps := roundSteps + [Calculate];
      }
      // The error handler, filtered on no shutdown having been requested.
      escaped := false;
      if threw {
        if round.shutdown == Running {
          // Logging and the one-minute back-off wait.
          assert false;
        }
        escaped := true;
      }
    }

    /** The background loop over an observed run of `rounds`: one computation at
        startup, then the rounds. */
    method StartStatsCalculationLoop(startup: Computation, rounds: seq<Round>) returns (steps: seq<Step>, end: LoopEnd)
      modifies this
      ensures end == EndOf(rounds)
      ensures steps == Schedule(Completed(rounds), end == WaitCancelled)
      ensures cachedStats == AfterComputations(AfterComputation(old(cachedStats), startup), Computations(rounds[..Completed(rounds)]))
    {
      var startupThrew := CalculateAndCacheStats(startup);
      var roundSteps;
      roundSteps, end := RunRounds(rounds);
      steps := [Calculate] + roundSteps;
    }

    /** The `while` loop of the background loop: rounds run until shutdown shows up;
        every exception that reaches the error handler escapes it (see `RunRound`). */
    method RunRounds(rounds: seq<Round>) returns (steps: seq<Step>, end: LoopEnd)
      modifies this
      ensures end == EndOf(rounds)
      ensures steps == Cycles(Completed(rounds)) + (if end == WaitCancelled then [Wait(FifteenMinutes)] else [])
      ensures cachedStats == AfterComputations(old(cachedStats), Computations(rounds[..Completed(rounds)]))
    {
      steps := [];
      var i := 0;
      while i < |rounds|
        invariant i <= |rounds|
        invariant forall k :: 0 <= k < i ==> rounds[k].shutdown == Running
        invariant steps == Cycles(i)
        invariant cachedStats == AfterComputations(old(cachedStats), Computations(rounds[..i]))
      {
        if rounds[i].shutdown == StopBeforeWait {
          CompletedIs(rounds, i);
          return steps, ShutdownObserved;
        }
        var roundSteps, escaped := RunRound(rounds[i]);
        if escaped {
          CompletedIs(rounds, i);
          return steps + roundSteps, WaitCancelled;
        }
        AfterRoundsStep(old(cachedStats), rounds, i);
        steps := steps + roundSteps;
        i := i + 1;
      }
      CompletedIs(rounds, i);
      end := StillRunning;
    }
  }
}
