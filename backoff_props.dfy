/** Properties of the backoff schedules. */
module BackOffProps {
  import opened Types
  import opened BackOffs

  function Min(a: int, b: int): int {
    if a <= b then a else b
  }

  /** Each delay is the current interval capped at the maximum, so it never
    * exceeds the maximum. */
  lemma SleepIsCapped(e: ExpState)
    ensures NextSleep(e).sleep == Min(WithInterval(e).interval, CurrentMax(e))
    ensures NextSleep(e).sleep <= CurrentMax(e)
  {
  }

  /** A step keeps the maximum, the multiplier and their suppliers, and
    * drops the initial-interval supplier. */
  lemma StepKeepsSettings(e: ExpState)
    ensures CurrentMax(NextSleep(e).next) == CurrentMax(e)
    ensures CurrentMultiplier(NextSleep(e).next) == CurrentMultiplier(e)
    ensures NextSleep(e).next.initialIntervalSupplier.None?
  {
  }

  /** While the interval is within the maximum it is multiplied (the
    * multiplier supplier, when set, wins); once above it, it stops changing. */
  lemma IntervalAdvancesOnlyUnderCap(e: ExpState)
    requires e.initialIntervalSupplier.None?
    ensures e.interval <= CurrentMax(e) ==>
              NextSleep(e).next.interval == Truncate(e.interval as real * CurrentMultiplier(e))
    ensures e.interval > CurrentMax(e) ==> NextSleep(e).next == e
  {
  }

  /** With a multiplier of at least 1, an interval never shrinks. */
  lemma IntervalNeverShrinks(e: ExpState)
    requires e.initialIntervalSupplier.None? && e.interval >= 0 && CurrentMultiplier(e) >= 1.0
    ensures NextSleep(e).next.interval >= e.interval
  {
    if e.interval <= CurrentMax(e) {
      assert e.interval as real * CurrentMultiplier(e) >= e.interval as real;
    }
  }

  /** With a non-negative starting interval and a multiplier of at least 1,
    * the delays of a schedule never decrease: each is the interval capped
    * at a fixed maximum, and the interval never shrinks. */
  lemma {:induction false} SleepsNeverShrink(e: ExpState, n: nat)
    requires WithInterval(e).interval >= 0 && CurrentMultiplier(e) >= 1.0
    ensures forall i, j :: 0 <= i < j < n ==> Sleeps(e, n)[i] <= Sleeps(e, n)[j]
    decreases n
  {
    if n > 1 {
      var e1 := WithInterval(e);
      var next := NextSleep(e).next;
      StepKeepsSettings(e);
      IntervalNeverShrinks(e1);
      assert NextSleep(e1) == NextSleep(e);
      assert WithInterval(next) == next;
      SleepsNeverShrink(next, n - 1);
      var r := Sleeps(e, n);
      assert r[1..] == Sleeps(next, n - 1);
      assert r[0] <= r[1];
      forall i, j | 0 <= i < j < n
        ensures r[i] <= r[j]
      {
        if i > 0 {
          assert r[i] == r[1..][i - 1] && r[j] == r[1..][j - 1];
        } else if j > 1 {
          assert r[1] == r[1..][0] && r[j] == r[1..][j - 1];
        }
      }
    }
  }

  /** Once the interval is above the maximum, every delay is the maximum. */
  lemma {:induction false} CappedScheduleIsConstant(e: ExpState, n: nat)
    requires e.initialIntervalSupplier.None? && e.interval > CurrentMax(e)
    ensures Sleeps(e, n) == seq(n, i => CurrentMax(e))
    decreases n
  {
    if n > 0 {
      assert NextSleep(e).next == e;
      CappedScheduleIsConstant(e, n - 1);
    }
  }

  /** The initial-interval supplier is read once: the schedule is that of
    * a context whose interval is the supplier's value. */
  lemma InitialSupplierReadOnce(e: ExpState, n: nat)
    requires e.initialIntervalSupplier.Some?
    ensures Sleeps(e, n) == Sleeps(e.(interval := e.initialIntervalSupplier.value, initialIntervalSupplier := None), n)
  {
    var plain := e.(interval := e.initialIntervalSupplier.value, initialIntervalSupplier := None);
    assert WithInterval(e) == plain;
    assert NextSleep(e) == NextSleep(plain);
  }

  /** The policy's defaults: 100 ms doubling, capped at 30 s. */
  lemma ExponentialDefaults()
    ensures DEFAULT_INITIAL_INTERVAL == 100 && DEFAULT_MULTIPLIER == 2.0 && DEFAULT_MAX_INTERVAL == 30000
  {
  }

  /** Initial 100, multiplier 2, maximum 1000: 100, 200, 400, 800, 1000, 1000. */
  lemma DoublingToTheCap()
    ensures Sleeps(ExpState(100, 2.0, 1000, None, None, None), 6) == [100, 200, 400, 800, 1000, 1000]
  {
    var e0 := ExpState(100, 2.0, 1000, None, None, None);
    assert NextSleep(e0) == Step(100, e0.(interval := 200));
    assert NextSleep(e0.(interval := 200)) == Step(200, e0.(interval := 400));
    assert NextSleep(e0.(interval := 400)) == Step(400, e0.(interval := 800));
    assert NextSleep(e0.(interval := 800)) == Step(800, e0.(interval := 1600));
    CappedScheduleIsConstant(e0.(interval := 1600), 2);
  }

  /** The uniform random delay lies in `[min, max)` when `max > min` and is
    * `min` otherwise. */
  lemma RandomDelayRange(min: int, max: int, source: nat -> nat, n: nat)
    ensures max > min ==> min <= RandomDelay(min, max, source, n) < max
    ensures max <= min ==> RandomDelay(min, max, source, n) == min
  {
  }

  /** The stateless policies start no context; only the exponential
    * policy's backoff changes one. */
  lemma StatelessStartsNothing(p: Pacing, draw: nat)
    ensures !p.ExponentialPause? ==> StartOf(p).None? && PauseOf(p, None, draw).context.None?
    ensures p.NoPause? ==> PauseOf(p, None, draw).delay.None? && PauseOf(p, None, draw).draws == 0
  {
  }
}
