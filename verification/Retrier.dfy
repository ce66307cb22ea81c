/**
 ObjectRetrierWraps.__call__: a call tried again with growing pauses, until it succeeds, fails for good,
 or one of two budgets, retries and total wait, is spent.
 */
module Retrier {
  import opened Wrappers

  /** An exception: its exact class, and whether that class is among those never retried. */
  datatype Error = Error(kind: string, neverRetry: bool)

  datatype Settings = Settings(
    numRetries: int,
    initialInterval: real,
    backoff: real,
    maxInterval: real,
    totalWait: real,
    retryExceptions: Option<set<string>>)

  /** What the wrapped object does when it is called for the k-th time, from 0. */
  type Outcomes<!T> = nat -> Result<T, Error>

  /** An exception that is raised again at once. */
  predicate Fatal(s: Settings, e: Error) {
    e.neverRetry || (s.retryExceptions.Some? && e.kind !in s.retryExceptions.value)
  }

  /** The pause after a pause. */
  function Longer(s: Settings, wait: real): real {
    var w := wait * s.backoff;
    if w > s.maxInterval then s.maxInterval else w
  }

  /** The k-th pause, from 0. */
  function Wait(s: Settings, k: nat): real {
    if k == 0 then s.initialInterval else Longer(s, Wait(s, k - 1))
  }

  /** The first k pauses together. */
  function TotalSleep(s: Settings, k: nat): real {
    if k == 0 then 0.0 else TotalSleep(s, k - 1) + Wait(s, k - 1)
  }

  function Waits(s: Settings, k: nat): seq<real> {
    seq(k, i requires 0 <= i < k => Wait(s, i))
  }

  /** Whether call k ends the loop for another reason than the total wait. */
  predicate EndsAtOnce<T>(s: Settings, outcomes: Outcomes<T>, k: nat) {
    outcomes(k).Success? || Fatal(s, outcomes(k).error) || k >= s.numRetries
  }

  /** Whether call k settles the matter: it succeeds, fails for good, or spends a budget. */
  predicate Decisive<T>(s: Settings, outcomes: Outcomes<T>, k: nat) {
    EndsAtOnce(s, outcomes, k) || TotalSleep(s, k + 1) >= s.totalWait
  }

  ghost predicate FirstDecisive<T>(s: Settings, outcomes: Outcomes<T>, k: nat) {
    Decisive(s, outcomes, k) && forall j: nat :: j < k ==> !Decisive(s, outcomes, j)
  }

  /** Call n is reached: every call before it failed in a way that may be tried again, there are n retries, and
      pauses of less than the total wait led to it. */
  ghost predicate Reaches<T>(s: Settings, outcomes: Outcomes<T>, n: nat) {
    && (n > 0 ==> n <= s.numRetries)
    && (forall j: nat :: j < n ==>
          && outcomes(j).Failure? && !outcomes(j).error.neverRetry
          && (s.retryExceptions.None? || outcomes(j).error.kind in s.retryExceptions.value))
    && (forall j: nat :: 0 < j <= n ==> Sum(Waits(s, j)) < s.totalWait)
  }

  /** __call__: it ends with the outcome of the last call it reaches, which is the first decisive one.  A failure
      that spends the total wait is only raised after one more pause. */
  method Call<T>(s: Settings, outcomes: Outcomes<T>) returns (result: Result<T, Error>, calls: nat, slept: seq<real>)
    ensures calls >= 1 && FirstDecisive(s, outcomes, calls - 1)
    ensures result == outcomes(calls - 1)
    ensures forall n: nat :: Reaches(s, outcomes, n) <==> n < calls
    ensures slept == Waits(s, if EndsAtOnce(s, outcomes, calls - 1) then calls - 1 else calls)
    ensures |slept| == calls - 1 <==>
      || result.Success? || result.error.neverRetry
      || (s.retryExceptions.Some? && result.error.kind !in s.retryExceptions.value)
      || calls > s.numRetries
  {
    var retry := 0;
    var wait := s.initialInterval;
    var waitSoFar := 0.0;
    calls, slept := 0, [];
    hide TotalSleep, Wait, Waits, Longer, Fatal, Decisive, EndsAtOnce, Reaches;
    SleepStart(s);
    ReachesUpTo(s, outcomes);
    while true
      invariant retry == calls && (calls > 0 ==> calls <= s.numRetries)
      invariant wait == Wait(s, calls) && waitSoFar == TotalSleep(s, calls)
      invariant slept == Waits(s, calls)
      invariant forall j: nat :: j < calls ==> !Decisive(s, outcomes, j)
      decreases s.numRetries - retry
    {
      SleepStep(s, calls);
      WhenDecisive(s, outcomes, calls);
      assert |Waits(s, calls)| == calls by { HowManyWaits(s, calls); }
      result := outcomes(calls);
      calls := calls + 1;
      if result.Success? {
        return;
      }
      if Fatal(s, result.error) {
        return;
      }
      retry := retry + 1;
      if retry > s.numRetries {
        return;
      }
      slept := slept + [wait];
      waitSoFar := waitSoFar + wait;
      if waitSoFar >= s.totalWait {
        return;
      }
      wait := Lengthen(s, wait);
    }
  }

  /** A call is reached exactly if no decisive one is before it. */
  lemma {:induction false} ReachesIff<T>(s: Settings, outcomes: Outcomes<T>, n: nat)
    ensures Reaches(s, outcomes, n) <==> forall j: nat :: j < n ==> !Decisive(s, outcomes, j)
  {
    hide TotalSleep, Waits;
    forall j: nat ensures Sum(Waits(s, j)) == TotalSleep(s, j) { SumOfWaits(s, j); }
    forall j: nat | j < n
      ensures !Decisive(s, outcomes, j) <==>
        && outcomes(j).Failure? && !outcomes(j).error.neverRetry
        && (s.retryExceptions.None? || outcomes(j).error.kind in s.retryExceptions.value)
        && j < s.numRetries && Sum(Waits(s, j + 1)) < s.totalWait
    {
    }
    if forall j: nat :: j < n ==> !Decisive(s, outcomes, j) {
      if n > 0 { assert !Decisive(s, outcomes, n - 1); }
      forall j: nat | 0 < j <= n ensures Sum(Waits(s, j)) < s.totalWait { assert !Decisive(s, outcomes, j - 1); }
    }
  }

  lemma {:induction false} ReachesUpTo<T>(s: Settings, outcomes: Outcomes<T>)
    ensures forall k: nat, n: nat | FirstDecisive(s, outcomes, k) :: Reaches(s, outcomes, n) <==> n <= k
    ensures forall k: nat :: EndsAtOnce(s, outcomes, k) <==>
      || outcomes(k).Success? || outcomes(k).error.neverRetry
      || (s.retryExceptions.Some? && outcomes(k).error.kind !in s.retryExceptions.value)
      || k >= s.numRetries
  {
    hide Decisive, Reaches;
    forall k: nat, n: nat | FirstDecisive(s, outcomes, k) ensures Reaches(s, outcomes, n) <==> n <= k {
      ReachesIff(s, outcomes, n);
    }
  }

  /** Where a reached call succeeds, or fails with what is never tried again or is not listed, it is the last. */
  lemma ReachedAndFinal<T>(s: Settings, outcomes: Outcomes<T>, n: nat)
    requires Reaches(s, outcomes, n)
    requires
      || outcomes(n).Success? || outcomes(n).error.neverRetry
      || (s.retryExceptions.Some? && outcomes(n).error.kind !in s.retryExceptions.value)
    ensures forall k: nat :: FirstDecisive(s, outcomes, k) <==> k == n
  {
    hide TotalSleep;
    ReachesIff(s, outcomes, n);
    assert Decisive(s, outcomes, n);
  }

  method Lengthen(s: Settings, wait: real) returns (next: real)
    ensures next == Longer(s, wait)
  {
    next := wait * s.backoff;
    if next > s.maxInterval {
      next := s.maxInterval;
    }
  }

  lemma HowManyWaits(s: Settings, k: nat)
    ensures |Waits(s, k)| == k
  {
  }

  lemma WhenDecisive<T>(s: Settings, outcomes: Outcomes<T>, k: nat)
    ensures EndsAtOnce(s, outcomes, k) <==> outcomes(k).Success? || Fatal(s, outcomes(k).error) || k >= s.numRetries
    ensures Decisive(s, outcomes, k) <==> EndsAtOnce(s, outcomes, k) || TotalSleep(s, k + 1) >= s.totalWait
  {
  }

  lemma SleepStart(s: Settings)
    ensures Wait(s, 0) == s.initialInterval && TotalSleep(s, 0) == 0.0 && Waits(s, 0) == []
  {
  }

  lemma SleepStep(s: Settings, k: nat)
    ensures TotalSleep(s, k + 1) == TotalSleep(s, k) + Wait(s, k)
    ensures Waits(s, k + 1) == Waits(s, k) + [Wait(s, k)]
    ensures Wait(s, k + 1) == Longer(s, Wait(s, k))
  {
  }

  function Sum(xs: seq<real>): real
    decreases |xs|
  {
    if xs == [] then 0.0 else Sum(xs[..|xs| - 1]) + xs[|xs| - 1]
  }

  /** The time a call sleeps is the sum of its pauses. */
  lemma {:induction false} SumOfWaits(s: Settings, k: nat)
    ensures Sum(Waits(s, k)) == TotalSleep(s, k)
  {
    if k == 0 {
    } else {
      SumOfWaits(s, k - 1);
      SleepStep(s, k - 1);
      assert Waits(s, k)[..k - 1] == Waits(s, k - 1);
    }
  }

  // ----- The first decisive call -----

  function Budget(s: Settings): nat {
    if s.numRetries < 0 then 0 else s.numRetries
  }

  /** There is exactly one first decisive call, and it is among the first num_retries + 1. */
  lemma {:induction false} FirstDecisiveExists<T>(s: Settings, outcomes: Outcomes<T>, from: nat) returns (k: nat)
    requires from <= Budget(s) && forall j: nat :: j < from ==> !Decisive(s, outcomes, j)
    ensures k <= Budget(s) && FirstDecisive(s, outcomes, k)
    ensures forall other: nat :: FirstDecisive(s, outcomes, other) ==> other == k
    decreases Budget(s) - from
  {
    hide TotalSleep;
    if Decisive(s, outcomes, from) {
      k := from;
    } else {
      k := FirstDecisiveExists(s, outcomes, from + 1);
    }
  }

  /** At most num_retries + 1 calls, and a single one when no retry is allowed. */
  lemma CallsWithinRetries<T>(s: Settings, outcomes: Outcomes<T>, k: nat)
    requires FirstDecisive(s, outcomes, k)
    ensures k + 1 <= Budget(s) + 1
  {
    var first := FirstDecisiveExists(s, outcomes, 0);
  }

  /** More patience never loses a success: with larger budgets the same call returns the same value. */
  lemma MoreBudgetKeepsSuccess<T>(s: Settings, more: Settings, outcomes: Outcomes<T>, k: nat)
    requires FirstDecisive(s, outcomes, k) && outcomes(k).Success?
    requires more == s.(numRetries := more.numRetries, totalWait := more.totalWait)
    requires more.numRetries >= s.numRetries && more.totalWait >= s.totalWait
    ensures FirstDecisive(more, outcomes, k)
  {
    hide TotalSleep;
    forall j: nat | j < k ensures !Decisive(more, outcomes, j) {
      assert !Decisive(s, outcomes, j);
      SameSleeps(s, more, j + 1);
    }
  }

  lemma SameLonger(s: Settings, t: Settings, wait: real)
    requires t.backoff == s.backoff && t.maxInterval == s.maxInterval
    ensures Longer(t, wait) == Longer(s, wait)
  {
  }

  lemma {:induction false} SameWaits(s: Settings, t: Settings, k: nat)
    requires t == s.(numRetries := t.numRetries, totalWait := t.totalWait)
    ensures Wait(t, k) == Wait(s, k)
  {
    hide Longer;
    if k == 0 {
    } else {
      SameWaits(s, t, k - 1);
      SameLonger(s, t, Wait(s, k - 1));
    }
  }

  lemma {:induction false} SameSleeps(s: Settings, t: Settings, k: nat)
    requires t == s.(numRetries := t.numRetries, totalWait := t.totalWait)
    ensures TotalSleep(t, k) == TotalSleep(s, k)
  {
    hide Wait;
    if k == 0 {
    } else {
      SameSleeps(s, t, k - 1);
      SameWaits(s, t, k - 1);
    }
  }

  // ----- The pauses in closed form -----

  function Power(x: real, k: nat): real {
    if k == 0 then 1.0 else Power(x, k - 1) * x
  }

  function Min(x: real, y: real): real {
    if x <= y then x else y
  }

  function Max(x: real, y: real): real {
    if x <= y then y else x
  }

  /** initial * backoff^k */
  function Grown(s: Settings, k: nat): real {
    s.initialInterval * Power(s.backoff, k)
  }

  /** Pause k is initial * backoff^k, capped; only the first one is never capped. */
  lemma {:induction false} WaitClosedForm(s: Settings, k: nat)
    requires s.backoff >= 1.0 && s.initialInterval >= 0.0 && s.maxInterval >= 0.0
    ensures k == 0 ==> Wait(s, k) == s.initialInterval
    ensures k > 0 ==> Wait(s, k) == Min(Grown(s, k), s.maxInterval)
  {
    hide Grown, Wait;
    SleepStart(s);
    if k == 0 {
    } else {
      SleepStep(s, k - 1);
      GrownStep(s, k);
      WaitClosedForm(s, k - 1);
      if k > 1 {
        CapStep(Grown(s, k - 1), s.maxInterval, s.backoff);
      }
    }
  }

  lemma GrownStep(s: Settings, k: nat)
    requires k > 0 && s.backoff >= 1.0 && s.initialInterval >= 0.0
    ensures Grown(s, k) == Grown(s, k - 1) * s.backoff
    ensures Grown(s, k - 1) >= 0.0
    ensures k == 1 ==> Grown(s, k - 1) == s.initialInterval
  {
    PowerPositive(s.backoff, k - 1);
    Associate(s.initialInterval, Power(s.backoff, k - 1), s.backoff);
  }

  lemma {:induction false} PowerPositive(x: real, k: nat)
    requires x >= 1.0
    ensures Power(x, k) >= 1.0
  {
    if k == 0 {
    } else {
      PowerPositive(x, k - 1);
      Grows(1.0, Power(x, k - 1), x);
    }
  }

  /** Capping before a growing step changes nothing once the result is capped. */
  lemma CapStep(before: real, cap: real, factor: real)
    requires before >= 0.0 && cap >= 0.0 && factor >= 1.0
    ensures Min(Min(before, cap) * factor, cap) == Min(before * factor, cap)
  {
    if before > cap {
      Grows(cap, before, factor);
    }
  }

  lemma Associate(x: real, y: real, z: real)
    requires x >= 0.0 && y >= 0.0
    ensures x * y >= 0.0 && x * (y * z) == (x * y) * z
  {
  }

  lemma Grows(low: real, high: real, factor: real)
    requires 0.0 <= low <= high && factor >= 1.0
    ensures low <= low * factor <= high * factor
  {
    assert (high - low) * factor >= 0.0;
    assert low * (factor - 1.0) >= 0.0;
  }

  /** No pause is above the larger of the two intervals; the cap holds for all of them exactly when the
      first pause respects it. */
  lemma WaitCapped(s: Settings)
    ensures forall k: nat :: Wait(s, k) <= Max(s.initialInterval, s.maxInterval)
    ensures (forall k: nat :: Wait(s, k) <= s.maxInterval) <==> s.initialInterval <= s.maxInterval
  {
    hide Wait;
    SleepStart(s);
    forall k: nat
      ensures Wait(s, k) <= Max(s.initialInterval, s.maxInterval)
      ensures s.initialInterval <= s.maxInterval ==> Wait(s, k) <= s.maxInterval
    {
      if k > 0 { SleepStep(s, k - 1); }
    }
    assert s.initialInterval > s.maxInterval ==> Wait(s, 0) > s.maxInterval;
  }

  /** The time slept: below the total wait when the last call returns or fails otherwise than by spending
      it; a failure that spends it exceeds it by less than one pause. */
  lemma SleptBound<T>(s: Settings, outcomes: Outcomes<T>, k: nat)
    requires FirstDecisive(s, outcomes, k)
    requires s.totalWait > 0.0 && s.initialInterval >= 0.0
    ensures TotalSleep(s, k) < s.totalWait
    ensures TotalSleep(s, k + 1) < s.totalWait + Max(s.initialInterval, s.maxInterval)
            || EndsAtOnce(s, outcomes, k)
    ensures !EndsAtOnce(s, outcomes, k) ==> outcomes(k).Failure? && TotalSleep(s, k + 1) >= s.totalWait
  {
    hide Wait;
    WaitCapped(s);
    if k > 0 {
      assert !Decisive(s, outcomes, k - 1);
    }
  }

  /** Without a total wait to spend, the first failure is final. */
  lemma NoPatience<T>(s: Settings, outcomes: Outcomes<T>, k: nat)
    requires FirstDecisive(s, outcomes, k)
    requires s.totalWait <= 0.0 && s.initialInterval >= 0.0
    ensures k == 0
  {
    assert TotalSleep(s, 1) == s.initialInterval;
    assert Decisive(s, outcomes, 0);
  }

  /** The pauses never shrink below the first, so the total wait also bounds the number of calls. */
  lemma CallsWithinWait<T>(s: Settings, outcomes: Outcomes<T>, k: nat)
    requires FirstDecisive(s, outcomes, k)
    requires s.backoff >= 1.0 && 0.0 < s.initialInterval <= s.maxInterval && s.totalWait > 0.0
    ensures k as real * s.initialInterval < s.totalWait
  {
    hide TotalSleep;
    SleptBound(s, outcomes, k);
    SleepsAtLeast(s, k);
  }

  lemma {:induction false} WaitAtLeast(s: Settings, k: nat)
    requires s.backoff >= 1.0 && 0.0 < s.initialInterval <= s.maxInterval
    ensures s.initialInterval <= Wait(s, k)
  {
    if k == 0 {
    } else {
      WaitAtLeast(s, k - 1);
      Grows(s.initialInterval, Wait(s, k - 1), s.backoff);
    }
  }

  lemma {:induction false} SleepsAtLeast(s: Settings, k: nat)
    requires s.backoff >= 1.0 && 0.0 < s.initialInterval <= s.maxInterval
    ensures k as real * s.initialInterval <= TotalSleep(s, k)
  {
    hide Wait;
    if k == 0 {
    } else {
      SleepsAtLeast(s, k - 1);
      WaitAtLeast(s, k - 1);
      assert k as real == (k - 1) as real + 1.0;
    }
  }

  /** With a constant pause the sleeps add up exactly ... */
  lemma {:induction false} ConstantSleeps(s: Settings, k: nat)
    requires s.backoff == 1.0 && s.initialInterval <= s.maxInterval
    ensures Wait(s, k) == s.initialInterval
    ensures TotalSleep(s, k) == k as real * s.initialInterval
  {
    if k == 0 {
    } else {
      ConstantSleeps(s, k - 1);
      assert k as real == (k - 1) as real + 1.0;
    }
  }

  /** Whether k + 1 constant pauses spend the total wait. */
  predicate Spent(s: Settings, k: nat) {
    (k + 1) as real * s.initialInterval >= s.totalWait
  }

  /** ... so a call that always fails is made once per retry and once more, or as often as pauses fit in
      the total wait, whichever is less. */
  lemma ConstantCalls<T>(s: Settings, outcomes: Outcomes<T>, k: nat)
    requires s.backoff == 1.0 && s.initialInterval <= s.maxInterval && s.numRetries >= 0
    requires forall j: nat ::
      && outcomes(j).Failure? && !outcomes(j).error.neverRetry
      && (s.retryExceptions.None? || outcomes(j).error.kind in s.retryExceptions.value)
    ensures FirstDecisive(s, outcomes, k) <==>
      && (k == s.numRetries || (k < s.numRetries && Spent(s, k)))
      && forall j: nat :: j < k ==> !Spent(s, j)
  {
    hide TotalSleep, Spent;
    forall j: nat ensures Decisive(s, outcomes, j) <==> j >= s.numRetries || Spent(s, j) {
      ConstantDecisive(s, outcomes, j);
    }
    assert FirstDecisive(s, outcomes, k) && k > s.numRetries ==> !Decisive(s, outcomes, s.numRetries);
  }

  lemma ConstantDecisive<T>(s: Settings, outcomes: Outcomes<T>, j: nat)
    requires s.backoff == 1.0 && s.initialInterval <= s.maxInterval
    requires outcomes(j).Failure? && !Fatal(s, outcomes(j).error)
    ensures Decisive(s, outcomes, j) <==> j >= s.numRetries || Spent(s, j)
  {
    hide TotalSleep;
    ConstantSleeps(s, j + 1);
  }
}
