/** The retry loop of `connect`: how often it tries, what it returns, and how long it waits. */
module ConnectLoop {

  /** What one connection attempt yields; a client error is an HTTP response with a 4xx status. */
  datatype Outcome = Connected | ClientError(status: nat) | OtherFailure(code: nat)

  /** The loop returns an attempt's outcome, unless the power of two it needs for a wait does not fit a u64. */
  datatype Ending = Returned(outcome: Outcome) | PowerOverflow

  /** The last attempt whose wait still fits: 2^(57 + 6) < 2^64. */
  const LAST_SAFE_WAIT := 57

  function Pow2(n: nat): (p: nat)
    ensures p >= 1
  {
    if n == 0 then 1 else 2 * Pow2(n - 1)
  }

  function Min(a: nat, b: nat): nat {
    if a <= b then a else b
  }

  /** The wait in milliseconds after failed attempt `attempt`. */
  function Wait(attempt: nat, cap: nat): nat {
    Min(Pow2(attempt + 6), cap)
  }

  function Sum(waits: seq<nat>): nat {
    if waits == [] then 0 else Sum(waits[..|waits| - 1]) + waits[|waits| - 1]
  }

  /** Attempt `last` is the first success, the first client error, or the one after `maxRetries` retries. */
  ghost predicate IsLast(maxRetries: nat, outcomes: nat -> Outcome, last: nat) {
    && last <= maxRetries
    && (forall j :: 0 <= j < last ==> outcomes(j).OtherFailure?)
    && (last == maxRetries || !outcomes(last).OtherFailure?)
  }

  lemma LastIsUnique(maxRetries: nat, outcomes: nat -> Outcome, a: nat, b: nat)
    requires IsLast(maxRetries, outcomes, a) && IsLast(maxRetries, outcomes, b)
    ensures a == b
  {
  }

  lemma {:induction false} Pow2Grows(m: nat, n: nat)
    requires m <= n
    ensures Pow2(m) <= Pow2(n)
    ensures m < n ==> 2 * Pow2(m) <= Pow2(n)
  {
    if m < n {
      Pow2Grows(m, n - 1);
    }
  }

  lemma Pow2Of16()
    ensures Pow2(16) == 0x1_0000
  {
    assert Pow2(4) == 16;
    Pow2Adds(4, 4);
    Pow2Adds(8, 8);
  }

  lemma SizeOfU64()
    ensures Pow2(64) == 0x1_0000_0000_0000_0000
  {
    Pow2Of16();
    Pow2Adds(16, 16);
    Pow2Adds(32, 32);
  }

  lemma U64Holds(attempt: nat)
    ensures Pow2(attempt + 6) < 0x1_0000_0000_0000_0000 <==> attempt <= LAST_SAFE_WAIT
  {
    SizeOfU64();
    if attempt <= LAST_SAFE_WAIT {
      Pow2Grows(attempt + 6, 64);
    } else {
      Pow2Grows(64, attempt + 6);
    }
  }

  lemma {:induction false} Pow2Adds(m: nat, n: nat)
    ensures Pow2(m + n) == Pow2(m) * Pow2(n)
  {
    if n != 0 {
      Pow2Adds(m, n - 1);
    }
  }

  /** `connect` against any sequence of attempt outcomes; `cap` is the maximal backoff in milliseconds. */
  method Connect(maxRetries: nat, cap: nat, outcomes: nat -> Outcome)
    returns (ending: Ending, attempts: nat, waits: seq<nat>)
    ensures attempts >= 1 && |waits| == attempts - 1
    ensures forall k :: 0 <= k < |waits| ==> waits[k] == Wait(k, cap)
    ensures ending.Returned? ==>
      IsLast(maxRetries, outcomes, attempts - 1) && ending.outcome == outcomes(attempts - 1)
    ensures ending == PowerOverflow <==>
      maxRetries > LAST_SAFE_WAIT + 1 && forall j :: 0 <= j <= LAST_SAFE_WAIT + 1 ==> outcomes(j).OtherFailure?
  {
    var attempt := 0;
    waits := [];
    while true
      invariant attempt <= maxRetries && |waits| == attempt
      invariant attempt <= LAST_SAFE_WAIT + 1
      invariant forall j :: 0 <= j < attempt ==> outcomes(j).OtherFailure?
      invariant forall k :: 0 <= k < |waits| ==> waits[k] == Wait(k, cap)
      decreases maxRetries - attempt
    {
      var outcome := outcomes(attempt);
      if outcome.Connected? || attempt == maxRetries || outcome.ClientError? {
        return Returned(outcome), attempt + 1, waits;
      }
      U64Holds(attempt);
      if attempt > LAST_SAFE_WAIT {
        return PowerOverflow, attempt + 1, waits;
      }
      waits := waits + [Min(Pow2(attempt + 6), cap)];
      attempt := attempt + 1;
    }
  }

  lemma SixtyFourTimes(n: nat)
    ensures Pow2(n + 6) == 64 * Pow2(n)
  {
    Pow2Adds(n, 6);
    assert Pow2(6) == 64;
  }

  /** A wait is the power of two until that reaches the cap, and from then on exactly the cap. */
  lemma {:induction false} WaitsReachTheCap(waits: seq<nat>, cap: nat, k: nat)
    requires forall i :: 0 <= i < |waits| ==> waits[i] == Wait(i, cap)
    requires k < |waits|
    ensures waits[k] == if Pow2(k + 6) < cap then Pow2(k + 6) else cap
    ensures Pow2(k + 6) >= cap ==> forall i :: k <= i < |waits| ==> waits[i] == cap
  {
    if Pow2(k + 6) >= cap {
      forall i | k <= i < |waits| ensures waits[i] == cap {
        Pow2Grows(k + 6, i + 6);
      }
    }
  }

  /** However `connect` ends, it waits longer and longer. */
  lemma WaitsNeverShrink(waits: seq<nat>, cap: nat)
    requires forall k :: 0 <= k < |waits| ==> waits[k] == Wait(k, cap)
    ensures forall i, j :: 0 <= i <= j < |waits| ==> waits[i] <= waits[j]
  {
    forall i, j | 0 <= i <= j < |waits| ensures waits[i] <= waits[j] {
      Pow2Grows(i + 6, j + 6);
    }
  }

  lemma {:induction false} SumAtMostGeometric(waits: seq<nat>, cap: nat)
    requires forall k :: 0 <= k < |waits| ==> waits[k] == Wait(k, cap)
    ensures Sum(waits) <= 64 * (Pow2(|waits|) - 1)
  {
    if waits != [] {
      SumAtMostGeometric(waits[..|waits| - 1], cap);
      SixtyFourTimes(|waits| - 1);
    }
  }

  lemma {:induction false} SumAtMostCapped(waits: seq<nat>, cap: nat)
    requires forall k :: 0 <= k < |waits| ==> waits[k] == Wait(k, cap)
    ensures Sum(waits) <= |waits| * cap
  {
    if waits != [] {
      SumAtMostCapped(waits[..|waits| - 1], cap);
      assert |waits| * cap == (|waits| - 1) * cap + cap;
    }
  }

  /** In total, k waits take at most 64 (2^k - 1) milliseconds, and at most k times the cap. */
  lemma {:induction false} WaitsAreBounded(waits: seq<nat>, cap: nat)
    requires forall k :: 0 <= k < |waits| ==> waits[k] == Wait(k, cap)
    ensures Sum(waits) <= Min(64 * (Pow2(|waits|) - 1), |waits| * cap)
  {
    SumAtMostGeometric(waits, cap);
    SumAtMostCapped(waits, cap);
  }

  /** If the cap never bites, the waits are exactly geometric. */
  lemma {:induction false} UncappedWaits(waits: seq<nat>, cap: nat)
    requires forall k :: 0 <= k < |waits| ==> waits[k] == Wait(k, cap) && Pow2(k + 6) <= cap
    ensures Sum(waits) == 64 * (Pow2(|waits|) - 1)
  {
    if waits != [] {
      var n := |waits| - 1;
      UncappedWaits(waits[..n], cap);
      SixtyFourTimes(n);
    }
  }
}
