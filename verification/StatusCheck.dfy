/**
 * The retry budget of a data source check. Durations are in seconds, as reals; the logarithm's floor is the largest
 * power of the backoff factor that fits.
 */
module StatusCheck {
  import opened Messages

  datatype CheckTask = CheckTask(name: string, retriesLeft: int, delayTillNext: real, backoff: real)

  function Pow(b: real, n: nat): (p: real)
    requires b > 0.0
    ensures p > 0.0
  {
    if n == 0 then 1.0 else Positive(b, Pow(b, n - 1)); b * Pow(b, n - 1)
  }

  lemma Positive(a: real, b: real)
    requires a > 0.0 && b > 0.0
    ensures a * b > 0.0
  {
  }

  /** Multiplication under a name of its own: proofs about the sequence of delays need no arithmetic. */
  function Times(a: real, b: real): real {
    a * b
  }

  /** The delays d, d b, d b^2, ... as `next` computes them. */
  function Term(d: real, b: real, n: nat): real {
    if n == 0 then d else Times(Term(d, b, n - 1), b)
  }

  /** The sum of the first `n` delays. */
  function Geometric(d: real, b: real, n: nat): real {
    if n == 0 then 0.0 else Geometric(d, b, n - 1) + Term(d, b, n - 1)
  }

  lemma {:induction false} TermIsPower(d: real, b: real, n: nat)
    requires b > 0.0
    ensures Term(d, b, n) == Times(d, Pow(b, n))
  {
    if n > 0 {
      TermIsPower(d, b, n - 1);
      Rearrange(d, b, Pow(b, n - 1));
    }
  }

  lemma Rearrange(d: real, b: real, p: real)
    ensures d * (b * p) == (d * p) * b
  {
  }

  /** floor(log_b x), as the largest n with b^n <= x. */
  function FloorLog(b: real, x: real): (n: nat)
    requires b > 1.0 && x >= 1.0
    ensures Pow(b, n) <= x < Pow(b, n + 1)
    decreases x / (b - 1.0)
  {
    if x < b then
      assert Pow(b, 1) == b;
      0
    else
      DivideShrinks(b, x);
      var n := FloorLog(b, x / b);
      OneMorePower(b, x, n);
      n + 1
  }

  lemma DivideShrinks(b: real, x: real)
    requires b > 1.0 && x >= b
    ensures x / b >= 1.0
    ensures (x / b) / (b - 1.0) <= x / (b - 1.0) - 1.0
  {
    var y, q := x / b, b - 1.0;
    QuotientTimes(x, b);
    AtLeastOne(y, b);
    Shrink(y, b);
    QuotientTimes(x, q);
    QuotientTimes(y, q);
    QuotientsApart(x / q, y / q, q);
  }

  lemma QuotientTimes(x: real, d: real)
    requires d > 0.0
    ensures Times(x / d, d) == x
  {
  }

  lemma AtLeastOne(y: real, b: real)
    requires b > 0.0 && Times(y, b) >= b
    ensures y >= 1.0
  {
    if y < 1.0 {
      Positive(1.0 - y, b);
    }
  }

  /** y b - y == y (b - 1) >= b - 1. */
  lemma Shrink(y: real, b: real)
    requires y >= 1.0 && b > 1.0
    ensures Times(y, b) - y >= b - 1.0
  {
    if y > 1.0 {
      Positive(y - 1.0, b - 1.0);
    }
  }

  lemma QuotientsApart(u: real, v: real, q: real)
    requires q > 0.0 && Times(u, q) - Times(v, q) >= q
    ensures u - v >= 1.0
  {
    if u < v + 1.0 {
      TimesInOrder(u, v + 1.0, q);
      TimesOneMore(v, q);
    }
  }

  lemma TimesInOrder(u: real, v: real, q: real)
    requires u < v && q > 0.0
    ensures Times(u, q) < Times(v, q)
  {
    Ordered(q, u, v);
  }

  lemma TimesOneMore(v: real, q: real)
    ensures Times(v + 1.0, q) == Times(v, q) + q
  {
  }

  lemma OneMorePower(b: real, x: real, n: nat)
    requires b > 1.0 && Pow(b, n) <= x / b < Pow(b, n + 1)
    ensures Pow(b, n + 1) <= x < Pow(b, n + 2)
  {
    var y := x / b;
    assert x == b * y;
    Ordered(b, Pow(b, n), y);
    Ordered(b, y, Pow(b, n + 1));
  }

  lemma Ordered(b: real, u: real, v: real)
    requires b > 0.0
    ensures u < v ==> b * u < b * v
    ensures u <= v ==> b * u <= b * v
  {
    if u < v {
      Positive(b, v - u);
      assert b * (v - u) == b * v - b * u;
    }
  }

  /** The argument of the logarithm: 1 + (b - 1) T / d. */
  function BudgetRatio(total: real, initial: real, backoff: real): (x: real)
    requires total >= 0.0 && initial > 0.0 && backoff > 1.0
    ensures x >= 1.0
    ensures initial * (x - 1.0) == (backoff - 1.0) * total
  {
    NotNegative(backoff - 1.0, total);
    QuotientNotNegative((backoff - 1.0) * total, initial);
    1.0 + (backoff - 1.0) * total / initial
  }

  lemma NotNegative(a: real, b: real)
    requires a >= 0.0 && b >= 0.0
    ensures a * b >= 0.0
  {
  }

  lemma QuotientNotNegative(a: real, d: real)
    requires a >= 0.0 && d > 0.0
    ensures a / d >= 0.0 && d * (a / d) == a
  {
    var q := a / d;
    if q < 0.0 {
      Positive(-q, d);
    }
  }

  /** `DataSourceCheckTask::new`. Its documentation demands the preconditions on factor and delay. */
  function New(name: string, total: real, initial: real, backoff: real): CheckTask
    requires total >= 0.0 && initial > 0.0 && backoff > 1.0
  {
    var maxRetries: int :=
      if initial > total then 0 else FloorLog(backoff, BudgetRatio(total, initial, backoff)) - 1;
    CheckTask(name, maxRetries, initial, backoff)
  }

  /** `DataSourceCheckTask::next`: the wait before the next check, and the task for it. */
  function Next(t: CheckTask): Option<(real, CheckTask)> {
    if t.retriesLeft <= 0 then None
    else
      Some((t.delayTillNext,
            t.(retriesLeft := t.retriesLeft - 1, delayTillNext := Times(t.delayTillNext, t.backoff))))
  }

  /** The waits one gets by calling `next` until it yields nothing. */
  function Delays(t: CheckTask): seq<real>
    decreases t.retriesLeft
  {
    match Next(t)
    case None => []
    case Some((delay, t')) => [delay] + Delays(t')
  }

  /** The task after `n` calls of `next`. */
  function After(t: CheckTask, n: nat): CheckTask {
    t.(retriesLeft := t.retriesLeft - n, delayTillNext := Term(t.delayTillNext, t.backoff, n))
  }

  lemma AfterOneMore(t: CheckTask, n: nat)
    requires n < t.retriesLeft
    ensures Next(After(t, n)) == Some((Term(t.delayTillNext, t.backoff, n), After(t, n + 1)))
  {
    assert Term(t.delayTillNext, t.backoff, n + 1) == Times(Term(t.delayTillNext, t.backoff, n), t.backoff);
  }

  lemma {:induction false} DelaysAfter(t: CheckTask, n: nat)
    requires n <= t.retriesLeft
    ensures |Delays(After(t, n))| == t.retriesLeft - n
    ensures forall i :: 0 <= i < t.retriesLeft - n ==>
      Delays(After(t, n))[i] == Term(t.delayTillNext, t.backoff, n + i)
    decreases t.retriesLeft - n
  {
    if n < t.retriesLeft {
      AfterOneMore(t, n);
      DelaysAfter(t, n + 1);
      var rest := Delays(After(t, n + 1));
      assert Delays(After(t, n)) == [Term(t.delayTillNext, t.backoff, n)] + rest;
      forall i | 0 < i < t.retriesLeft - n
        ensures Delays(After(t, n))[i] == Term(t.delayTillNext, t.backoff, n + i)
      {
        assert rest[i - 1] == Term(t.delayTillNext, t.backoff, n + 1 + (i - 1));
      }
    }
  }

  /** (b - 1) (d + d b + ... + d b^(n-1)) == d (b^n - 1). */
  lemma {:induction false} GeometricSum(d: real, b: real, n: nat)
    requires b > 0.0
    ensures Times(b - 1.0, Geometric(d, b, n)) == Times(d, Pow(b, n) - 1.0)
  {
    if n > 0 {
      GeometricSum(d, b, n - 1);
      TermIsPower(d, b, n - 1);
      GeometricStep(d, b, Geometric(d, b, n - 1), Pow(b, n - 1), Geometric(d, b, n), Pow(b, n));
    }
  }

  lemma GeometricStep(d: real, b: real, g: real, p: real, g': real, p': real)
    requires Times(b - 1.0, g) == Times(d, p - 1.0)
    requires g' == g + Times(d, p) && p' == b * p
    ensures Times(b - 1.0, g') == Times(d, p' - 1.0)
  {
    assert (b - 1.0) * g' == (b - 1.0) * g + (b - 1.0) * (d * p);
    assert (b - 1.0) * (d * p) == d * (b * p) - d * p;
    assert d * (p - 1.0) == d * p - d;
    assert d * (b * p - 1.0) == d * (b * p) - d;
  }

  /** Comparing powers with the ratio is comparing geometric sums with the total. */
  lemma SumAgainstTotal(total: real, initial: real, backoff: real, n: nat)
    requires total >= 0.0 && initial > 0.0 && backoff > 1.0
    ensures Pow(backoff, n) <= BudgetRatio(total, initial, backoff) <==> Geometric(initial, backoff, n) <= total
  {
    SumAgainstRatio(total, initial, backoff, n, BudgetRatio(total, initial, backoff));
  }

  lemma SumAgainstRatio(total: real, initial: real, backoff: real, n: nat, x: real)
    requires total >= 0.0 && initial > 0.0 && backoff > 1.0
    requires Times(initial, x - 1.0) == Times(backoff - 1.0, total)
    ensures Pow(backoff, n) <= x <==> Geometric(initial, backoff, n) <= total
  {
    GeometricSum(initial, backoff, n);
    SameOrder(backoff - 1.0, Geometric(initial, backoff, n), total, initial, Pow(backoff, n), x);
  }

  lemma SameOrder(q: real, g: real, total: real, d: real, p: real, x: real)
    requires q > 0.0 && d > 0.0
    requires Times(q, g) == Times(d, p - 1.0) && Times(d, x - 1.0) == Times(q, total)
    ensures p <= x <==> g <= total
  {
    if p <= x {
      Ordered(d, p - 1.0, x - 1.0);
      Ordered(q, total, g);
    } else {
      Ordered(d, x - 1.0, p - 1.0);
      Ordered(q, g, total);
    }
  }

  lemma EnoughForOne(total: real, initial: real, backoff: real)
    requires 0.0 < initial <= total && backoff > 1.0
    ensures FloorLog(backoff, BudgetRatio(total, initial, backoff)) >= 1
  {
    SumAgainstTotal(total, initial, backoff, 1);
    assert Geometric(initial, backoff, 1) == 0.0 + Term(initial, backoff, 0);
  }

  /** Whether any delay fits decides which branch of `new` is taken; the retries then exhaust the budget. */
  lemma RetriesExhaustBudget(name: string, total: real, initial: real, backoff: real)
    requires total >= 0.0 && initial > 0.0 && backoff > 1.0
    ensures var r := New(name, total, initial, backoff).retriesLeft;
      && r >= 0
      && (initial > total ==> r == 0)
      && (initial <= total ==> Geometric(initial, backoff, r + 1) <= total < Geometric(initial, backoff, r + 2))
  {
    if initial <= total {
      var n := FloorLog(backoff, BudgetRatio(total, initial, backoff));
      EnoughForOne(total, initial, backoff);
      SumAgainstTotal(total, initial, backoff, n);
      SumAgainstTotal(total, initial, backoff, n + 1);
    }
  }

  /**
   * The budget: there are R >= 0 retries, after waits of d, d b, ..., d b^(R-1), each longer than the one before. If one
   * delay fits at all, then all waits together with the next, unused one stay within the total, and with one more still
   * they would not.
   */
  lemma RetriesStayWithinBudget(name: string, total: real, initial: real, backoff: real)
    requires total >= 0.0 && initial > 0.0 && backoff > 1.0
    ensures var t := New(name, total, initial, backoff); var r := t.retriesLeft;
      && r >= 0 && |Delays(t)| == r
      && (forall i :: 0 <= i < r ==> Delays(t)[i] == Times(initial, Pow(backoff, i)))
      && (forall i :: 0 < i < r ==> Delays(t)[i - 1] < Delays(t)[i])
      && (initial > total ==> r == 0)
      && (initial <= total ==> Geometric(initial, backoff, r + 1) <= total < Geometric(initial, backoff, r + 2))
  {
    RetriesExhaustBudget(name, total, initial, backoff);
    var t := New(name, total, initial, backoff);
    DelaysAreTerms(t);
    forall i | 0 <= i < t.retriesLeft ensures Delays(t)[i] == Times(initial, Pow(backoff, i)) {
      assert Delays(t)[i] == Term(t.delayTillNext, t.backoff, i);
      assert t.delayTillNext == initial && t.backoff == backoff;
      TermIsPower(initial, backoff, i);
    }
  }

  lemma DelaysAreTerms(t: CheckTask)
    requires t.retriesLeft >= 0 && t.delayTillNext > 0.0 && t.backoff > 1.0
    ensures |Delays(t)| == t.retriesLeft
    ensures forall i :: 0 <= i < t.retriesLeft ==>
      Delays(t)[i] == Term(t.delayTillNext, t.backoff, i)
    ensures forall i :: 0 < i < t.retriesLeft ==> Delays(t)[i - 1] < Delays(t)[i]
  {
    assert After(t, 0) == t;
    DelaysAfter(t, 0);
    forall i | 0 <= i < t.retriesLeft ensures Delays(t)[i] == Term(t.delayTillNext, t.backoff, i) {
      assert Delays(After(t, 0))[i] == Term(t.delayTillNext, t.backoff, 0 + i);
    }
    forall i | 0 < i < t.retriesLeft ensures Delays(t)[i - 1] < Delays(t)[i] {
      TermGrows(t.delayTillNext, t.backoff, i - 1);
      assert Delays(t)[i - 1] == Term(t.delayTillNext, t.backoff, i - 1);
    }
  }

  lemma TermIsPositive(d: real, b: real, n: nat)
    requires d > 0.0 && b > 0.0
    ensures Term(d, b, n) > 0.0
  {
    TermIsPower(d, b, n);
    Positive(d, Pow(b, n));
  }

  lemma TermGrows(d: real, b: real, n: nat)
    requires d > 0.0 && b > 1.0
    ensures Term(d, b, n) < Term(d, b, n + 1)
  {
    TermIsPositive(d, b, n);
    Positive(Term(d, b, n), b - 1.0);
    assert Term(d, b, n) * (b - 1.0) == Term(d, b, n) * b - Term(d, b, n);
  }

  lemma {:induction false} GeometricGrows(d: real, b: real, m: nat, n: nat)
    requires d > 0.0 && b > 0.0 && m < n
    ensures Geometric(d, b, m) < Geometric(d, b, n)
  {
    TermIsPositive(d, b, n - 1);
    if m < n - 1 {
      GeometricGrows(d, b, m, n - 1);
    }
  }

  /** No retry is attempted past the total: the i-th retry comes strictly before it. */
  lemma NoRetryPastTheTotal(name: string, total: real, initial: real, backoff: real, i: nat)
    requires total > 0.0 && initial > 0.0 && backoff > 1.0
    requires i <= New(name, total, initial, backoff).retriesLeft
    ensures Geometric(initial, backoff, i) < total
  {
    RetriesExhaustBudget(name, total, initial, backoff);
    if initial <= total {
      GeometricGrows(initial, backoff, i, New(name, total, initial, backoff).retriesLeft + 1);
    }
  }
}
