/** The backoff policies: how long the template pauses between attempts.
  * The sleeper and the random source are the input/output of this part:
  * a `Sleeper` records every delay it is asked for and is interrupted on
  * the calls named in advance, and a `RandomSource` answers `nextInt`
  * from a fixed sequence of raw draws. */
module BackOffs {
  import opened Types

  const DEFAULT_INITIAL_INTERVAL: int := 100
  const DEFAULT_MAX_INTERVAL: int := 30000
  const DEFAULT_MULTIPLIER: real := 2.0
  const DEFAULT_BACK_OFF_PERIOD: int := 1000
  const DEFAULT_BACK_OFF_MIN_PERIOD: int := 500
  const DEFAULT_BACK_OFF_MAX_PERIOD: int := 1500

  /** `Sleeper`: every requested delay is appended to `slept`; the calls
    * whose position is in `interrupts` end in an `InterruptedException`. */
  class Sleeper {
    var slept: seq<int>
    const interrupts: set<nat>

    constructor (interrupts: set<nat>)
      ensures slept == [] && this.interrupts == interrupts
    {
      slept := [];
      this.interrupts := interrupts;
    }

    method Sleep(period: int) returns (interrupted: bool)
      modifies this
      ensures slept == old(slept) + [period]
      ensures interrupted <==> |old(slept)| in interrupts
    {
      interrupted := |slept| in interrupts;
      slept := slept + [period];
    }
  }

  /** `Random.nextInt(bound)` as the `n`-th raw draw reduced below `bound`. */
  function Draw(source: nat -> nat, n: nat, bound: int): (r: int)
    requires bound > 0
    ensures 0 <= r < bound
  {
    source(n) % bound
  }

  /** `java.util.Random`: answers from the raw draws `source(0)`, `source(1)`, ... */
  class RandomSource {
    const source: nat -> nat
    var calls: nat

    constructor (source: nat -> nat)
      ensures this.source == source && calls == 0
    {
      this.source := source;
      calls := 0;
    }

    method NextInt(bound: int) returns (r: int)
      requires bound > 0
      modifies this
      ensures r == Draw(source, old(calls), bound) && calls == old(calls) + 1
    {
      r := Draw(source, calls, bound);
      calls := calls + 1;
    }
  }

  /** What a backoff raises when its sleep is interrupted. */
  function BackOffInterrupted(): (f: Failure)
    ensures f.ClassOf() == BACK_OFF_INTERRUPTED_EXCEPTION && f.InstanceOf(EXCEPTION) && !f.InstanceOf(ERROR)
  {
    RetryFailure(BACK_OFF_INTERRUPTED_EXCEPTION, Some(Interrupted()))
  }

  /** The clamp of every period setter: a value below 1 becomes 1. */
  function AtLeastOne(v: int): (r: int)
    ensures r >= 1
    ensures v >= 1 ==> r == v
    ensures v < 1 ==> r == 1
  {
    if v > 0 then v else 1
  }

  /** `setMultiplier`: a multiplier below 1 becomes 1. */
  function MultiplierAtLeastOne(m: real): (r: real)
    ensures r >= 1.0
    ensures m >= 1.0 ==> r == m
    ensures m < 1.0 ==> r == 1.0
  {
    if m > 1.0 then m else 1.0
  }

  // ---------------------------------------------------------------------
  // The exponential schedule
  // ---------------------------------------------------------------------

  /** The fields of an `ExponentialBackOffContext`; a supplier is the
    * value it yields. */
  datatype ExpState = ExpState(interval: int, multiplier: real, maxInterval: int,
                               initialIntervalSupplier: Option<int>,
                               multiplierSupplier: Option<real>,
                               maxIntervalSupplier: Option<int>)

  /** `getMultiplier`: the supplier's value when there is one. */
  function CurrentMultiplier(e: ExpState): real {
    if e.multiplierSupplier.Some? then e.multiplierSupplier.value else e.multiplier
  }

  /** `getMaxInterval`: the supplier's value when there is one. */
  function CurrentMax(e: ExpState): int {
    if e.maxIntervalSupplier.Some? then e.maxIntervalSupplier.value else e.maxInterval
  }

  /** `getInterval`: the initial-interval supplier, read once, replaces the
    * interval; the supplier is then dropped. */
  function WithInterval(e: ExpState): (r: ExpState)
    ensures r.initialIntervalSupplier.None?
    ensures r.interval == if e.initialIntervalSupplier.Some? then e.initialIntervalSupplier.value else e.interval
    ensures CurrentMax(r) == CurrentMax(e) && CurrentMultiplier(r) == CurrentMultiplier(e)
  {
    if e.initialIntervalSupplier.Some? then
      ExpState(e.initialIntervalSupplier.value, e.multiplier, e.maxInterval, None, e.multiplierSupplier, e.maxIntervalSupplier)
    else e
  }

  /** `(long) x` for a `double` x: truncation toward zero. */
  function Truncate(x: real): (r: int)
    ensures x >= 0.0 ==> r as real <= x < r as real + 1.0
    ensures x < 0.0 ==> r as real - 1.0 < x <= r as real
  {
    if x >= 0.0 then x.Floor else -((-x).Floor)
  }

  /** A delay and the context after it. */
  datatype Step = Step(sleep: int, next: ExpState)

  /** `getSleepAndIncrement`: the current interval capped at the maximum;
    * the interval grows by the multiplier only when it was not capped. */
  function NextSleep(e: ExpState): (s: Step)
  {
    var e1 := WithInterval(e);
    var max := CurrentMax(e1);
    if e1.interval > max then Step(max, e1)
    else Step(e1.interval, ExpState(Truncate(e1.interval as real * CurrentMultiplier(e1)), e1.multiplier,
                                    e1.maxInterval, None, e1.multiplierSupplier, e1.maxIntervalSupplier))
  }

  /** The first `n` delays of a schedule; none exceeds the maximum, which
    * a step never changes. */
  function Sleeps(e: ExpState, n: nat): (r: seq<int>)
    ensures |r| == n
    ensures forall i :: 0 <= i < n ==> r[i] <= CurrentMax(e)
    decreases n
  {
    if n == 0 then [] else [NextSleep(e).sleep] + Sleeps(NextSleep(e).next, n - 1)
  }

  /** `ExponentialBackOffContext`: the interval advances in place. */
  class ExponentialBackOffContext {
    var interval: int
    const multiplier: real
    const maxInterval: int
    var initialIntervalSupplier: Option<int>
    const multiplierSupplier: Option<real>
    const maxIntervalSupplier: Option<int>

    function State(): ExpState
      reads this
    {
      ExpState(interval, multiplier, maxInterval, initialIntervalSupplier, multiplierSupplier, maxIntervalSupplier)
    }

    constructor (e: ExpState)
      ensures State() == e
    {
      interval := e.interval;
      multiplier := e.multiplier;
      maxInterval := e.maxInterval;
      initialIntervalSupplier := e.initialIntervalSupplier;
      multiplierSupplier := e.multiplierSupplier;
      maxIntervalSupplier := e.maxIntervalSupplier;
    }

    method GetInterval() returns (r: int)
      modifies this
      ensures State() == WithInterval(old(State())) && r == interval
    {
      if initialIntervalSupplier.Some? {
        interval := initialIntervalSupplier.value;
        initialIntervalSupplier := None;
      }
      r := interval;
    }

    method GetMaxInterval() returns (r: int)
      ensures r == CurrentMax(State())
    {
      r := if maxIntervalSupplier.Some? then maxIntervalSupplier.value else maxInterval;
    }

    method GetMultiplier() returns (r: real)
      ensures r == CurrentMultiplier(State())
    {
      r := if multiplierSupplier.Some? then multiplierSupplier.value else multiplier;
    }

    method GetSleepAndIncrement() returns (sleep: int)
      modifies this
      ensures Step(sleep, State()) == NextSleep(old(State()))
    {
      sleep := GetInterval();
      var max := GetMaxInterval();
      if sleep > max {
        sleep := max;
      } else {
        var m := GetMultiplier();
        interval := Truncate(interval as real * m);
      }
    }
  }

  // ---------------------------------------------------------------------
  // The policies
  // ---------------------------------------------------------------------

  /** `ExponentialBackOffPolicy`: suppliers, when set, are the values
    * they yield. */
  class ExponentialBackOffPolicy {
    var initialInterval: int
    var maxInterval: int
    var multiplier: real
    var initialIntervalSupplier: Option<int>
    var maxIntervalSupplier: Option<int>
    var multiplierSupplier: Option<real>
    var sleeper: Sleeper

    constructor (sleeper: Sleeper)
      ensures initialInterval == DEFAULT_INITIAL_INTERVAL && maxInterval == DEFAULT_MAX_INTERVAL
      ensures multiplier == DEFAULT_MULTIPLIER && this.sleeper == sleeper
      ensures initialIntervalSupplier.None? && maxIntervalSupplier.None? && multiplierSupplier.None?
    {
      initialInterval := DEFAULT_INITIAL_INTERVAL;
      maxInterval := DEFAULT_MAX_INTERVAL;
      multiplier := DEFAULT_MULTIPLIER;
      initialIntervalSupplier := None;
      maxIntervalSupplier := None;
      multiplierSupplier := None;
      this.sleeper := sleeper;
    }

    /** The context `start` creates from the fields as they are. */
    function StartState(): ExpState
      reads this
    {
      ExpState(initialInterval, multiplier, maxInterval, initialIntervalSupplier, multiplierSupplier, maxIntervalSupplier)
    }

    method SetSleeper(sleeper: Sleeper)
      modifies this
      ensures this.sleeper == sleeper && StartState() == old(StartState())
    {
      this.sleeper := sleeper;
    }

    method SetInitialInterval(v: int)
      modifies this
      ensures StartState() == old(StartState()).(interval := AtLeastOne(v)) && sleeper == old(sleeper)
    {
      initialInterval := AtLeastOne(v);
    }

    method SetMultiplier(m: real)
      modifies this
      ensures StartState() == old(StartState()).(multiplier := MultiplierAtLeastOne(m)) && sleeper == old(sleeper)
    {
      multiplier := MultiplierAtLeastOne(m);
    }

    method SetMaxInterval(v: int)
      modifies this
      ensures StartState() == old(StartState()).(maxInterval := AtLeastOne(v)) && sleeper == old(sleeper)
    {
      maxInterval := AtLeastOne(v);
    }

    /** A null supplier is refused and nothing changes. */
    method InitialIntervalSupplier(supplier: Option<int>) returns (ok: bool)
      modifies this
      ensures ok <==> supplier.Some?
      ensures StartState() == if ok then old(StartState()).(initialIntervalSupplier := supplier) else old(StartState())
      ensures sleeper == old(sleeper)
    {
      if supplier.None? { return false; }
      initialIntervalSupplier := supplier;
      ok := true;
    }

    method MultiplierSupplier(supplier: Option<real>) returns (ok: bool)
      modifies this
      ensures ok <==> supplier.Some?
      ensures StartState() == if ok then old(StartState()).(multiplierSupplier := supplier) else old(StartState())
      ensures sleeper == old(sleeper)
    {
      if supplier.None? { return false; }
      multiplierSupplier := supplier;
      ok := true;
    }

    method MaxIntervalSupplier(supplier: Option<int>) returns (ok: bool)
      modifies this
      ensures ok <==> supplier.Some?
      ensures StartState() == if ok then old(StartState()).(maxIntervalSupplier := supplier) else old(StartState())
      ensures sleeper == old(sleeper)
    {
      if supplier.None? { return false; }
      maxIntervalSupplier := supplier;
      ok := true;
    }

    /** `getInitialInterval` */
    function InitialIntervalNow(): int
      reads this
    {
      if initialIntervalSupplier.Some? then initialIntervalSupplier.value else initialInterval
    }

    /** `start`: a new context of its own at the policy's current fields. */
    method Start() returns (c: ExponentialBackOffContext)
      ensures fresh(c) && c.State() == StartState()
    {
      c := new ExponentialBackOffContext(StartState());
    }

    /** `backOff`: sleeps the context's next delay. */
    method BackOff(c: ExponentialBackOffContext) returns (error: Option<Failure>)
      modifies c, sleeper
      ensures c.State() == NextSleep(old(c.State())).next
      ensures sleeper.slept == old(sleeper.slept) + [NextSleep(old(c.State())).sleep]
      ensures error == if |old(sleeper.slept)| in sleeper.interrupts then Some(BackOffInterrupted()) else None
    {
      var sleep := c.GetSleepAndIncrement();
      var interrupted := sleeper.Sleep(sleep);
      error := if interrupted then Some(BackOffInterrupted()) else None;
    }

    /** `withSleeper`: a copy made through the getters and the clamping
      * setters, so suppliers are read once and not carried over. */
    method WithSleeper(sleeper: Sleeper) returns (r: ExponentialBackOffPolicy)
      ensures fresh(r) && r.sleeper == sleeper
      ensures r.StartState() ==
                ExpState(AtLeastOne(InitialIntervalNow()),
                         MultiplierAtLeastOne(if multiplierSupplier.Some? then multiplierSupplier.value else multiplier),
                         AtLeastOne(if maxIntervalSupplier.Some? then maxIntervalSupplier.value else maxInterval),
                         None, None, None)
    {
      r := new ExponentialBackOffPolicy(this.sleeper);
      r.SetInitialInterval(InitialIntervalNow());
      r.SetMaxInterval(if maxIntervalSupplier.Some? then maxIntervalSupplier.value else maxInterval);
      r.SetMultiplier(if multiplierSupplier.Some? then multiplierSupplier.value else multiplier);
      r.SetSleeper(sleeper);
    }
  }

  /** `FixedBackOffPolicy`: `backOffPeriod` is the value its supplier yields. */
  class FixedBackOffPolicy {
    var backOffPeriod: int
    var sleeper: Sleeper

    constructor (sleeper: Sleeper)
      ensures backOffPeriod == DEFAULT_BACK_OFF_PERIOD && this.sleeper == sleeper
    {
      backOffPeriod := DEFAULT_BACK_OFF_PERIOD;
      this.sleeper := sleeper;
    }

    method SetSleeper(sleeper: Sleeper)
      modifies this
      ensures this.sleeper == sleeper && backOffPeriod == old(backOffPeriod)
    {
      this.sleeper := sleeper;
    }

    method SetBackOffPeriod(period: int)
      modifies this
      ensures backOffPeriod == AtLeastOne(period) && sleeper == old(sleeper)
    {
      backOffPeriod := AtLeastOne(period);
    }

    /** A null supplier is refused; a supplier's value is taken unclamped. */
    method BackOffPeriodSupplier(supplier: Option<int>) returns (ok: bool)
      modifies this
      ensures ok <==> supplier.Some?
      ensures backOffPeriod == if ok then supplier.value else old(backOffPeriod)
      ensures sleeper == old(sleeper)
    {
      if supplier.None? { return false; }
      backOffPeriod := supplier.value;
      ok := true;
    }

    /** `doBackOff`: one sleep of the current period. */
    method BackOff() returns (error: Option<Failure>)
      modifies sleeper
      ensures sleeper.slept == old(sleeper.slept) + [backOffPeriod]
      ensures error == if |old(sleeper.slept)| in sleeper.interrupts then Some(BackOffInterrupted()) else None
    {
      var interrupted := sleeper.Sleep(backOffPeriod);
      error := if interrupted then Some(BackOffInterrupted()) else None;
    }

    /** `withSleeper` as written: the copy is built and dropped, and the
      * caller receives null. */
    method WithSleeperAsWritten(sleeper: Sleeper) returns (r: FixedBackOffPolicy?)
      ensures r == null
    {
      var res := new FixedBackOffPolicy(this.sleeper);
      var _ := res.BackOffPeriodSupplier(Some(backOffPeriod));
      res.SetSleeper(sleeper);
      r := null;
    }

    /** `withSleeper` as intended: the copy, with the same period supplier
      * and the new sleeper. */
    method WithSleeper(sleeper: Sleeper) returns (r: FixedBackOffPolicy)
      ensures fresh(r) && r.backOffPeriod == backOffPeriod && r.sleeper == sleeper
    {
      r := new FixedBackOffPolicy(this.sleeper);
      var _ := r.BackOffPeriodSupplier(Some(backOffPeriod));
      r.SetSleeper(sleeper);
    }
  }

  /** The delay of a uniform random backoff for the bounds and the raw
    * draw `n`; no draw is taken when `max <= min`. */
  function RandomDelay(min: int, max: int, source: nat -> nat, n: nat): (d: int)
  {
    min + (if max <= min then 0 else Draw(source, n, max - min))
  }

  /** How many draws one random backoff takes. */
  function DrawsTaken(min: int, max: int): nat {
    if max <= min then 0 else 1
  }

  /** `UniformRandomBackOffPolicy`: the bounds are the values their
    * suppliers yield. */
  class UniformRandomBackOffPolicy {
    var minBackOffPeriod: int
    var maxBackOffPeriod: int
    const random: RandomSource
    var sleeper: Sleeper

    constructor (random: RandomSource, sleeper: Sleeper)
      ensures minBackOffPeriod == DEFAULT_BACK_OFF_MIN_PERIOD && maxBackOffPeriod == DEFAULT_BACK_OFF_MAX_PERIOD
      ensures this.random == random && this.sleeper == sleeper
    {
      minBackOffPeriod := DEFAULT_BACK_OFF_MIN_PERIOD;
      maxBackOffPeriod := DEFAULT_BACK_OFF_MAX_PERIOD;
      this.random := random;
      this.sleeper := sleeper;
    }

    method SetSleeper(sleeper: Sleeper)
      modifies this
      ensures this.sleeper == sleeper
      ensures minBackOffPeriod == old(minBackOffPeriod) && maxBackOffPeriod == old(maxBackOffPeriod)
    {
      this.sleeper := sleeper;
    }

    method SetMinBackOffPeriod(period: int)
      modifies this
      ensures minBackOffPeriod == AtLeastOne(period)
      ensures maxBackOffPeriod == old(maxBackOffPeriod) && sleeper == old(sleeper)
    {
      minBackOffPeriod := AtLeastOne(period);
    }

    method SetMaxBackOffPeriod(period: int)
      modifies this
      ensures maxBackOffPeriod == AtLeastOne(period)
      ensures minBackOffPeriod == old(minBackOffPeriod) && sleeper == old(sleeper)
    {
      maxBackOffPeriod := AtLeastOne(period);
    }

    method MinBackOffPeriodSupplier(supplier: Option<int>) returns (ok: bool)
      modifies this
      ensures ok <==> supplier.Some?
      ensures minBackOffPeriod == if ok then supplier.value else old(minBackOffPeriod)
      ensures maxBackOffPeriod == old(maxBackOffPeriod) && sleeper == old(sleeper)
    {
      if supplier.None? { return false; }
      minBackOffPeriod := supplier.value;
      ok := true;
    }

    method MaxBackOffPeriodSupplier(supplier: Option<int>) returns (ok: bool)
      modifies this
      ensures ok <==> supplier.Some?
      ensures maxBackOffPeriod == if ok then supplier.value else old(maxBackOffPeriod)
      ensures minBackOffPeriod == old(minBackOffPeriod) && sleeper == old(sleeper)
    {
      if supplier.None? { return false; }
      maxBackOffPeriod := supplier.value;
      ok := true;
    }

    /** `doBackOff`: one sleep of `min + delta`, with `delta` drawn below
      * `max - min` when `max > min` and zero otherwise. */
    method BackOff() returns (error: Option<Failure>)
      modifies sleeper, random
      ensures sleeper.slept == old(sleeper.slept) + [RandomDelay(minBackOffPeriod, maxBackOffPeriod, random.source, old(random.calls))]
      ensures random.calls == old(random.calls) + DrawsTaken(minBackOffPeriod, maxBackOffPeriod)
      ensures error == if |old(sleeper.slept)| in sleeper.interrupts then Some(BackOffInterrupted()) else None
    {
      var min := minBackOffPeriod;
      var max := maxBackOffPeriod;
      var delta := 0;
      if max > min {
        delta := random.NextInt(max - min);
      }
      var interrupted := sleeper.Sleep(min + delta);
      error := if interrupted then Some(BackOffInterrupted()) else None;
    }

    /** `withSleeper`: a new instance, with its own random source, the same
      * bounds and the new sleeper. */
    method WithSleeper(sleeper: Sleeper, random: RandomSource) returns (r: UniformRandomBackOffPolicy)
      ensures fresh(r) && r.sleeper == sleeper && r.random == random
      ensures r.minBackOffPeriod == minBackOffPeriod && r.maxBackOffPeriod == maxBackOffPeriod
    {
      r := new UniformRandomBackOffPolicy(random, this.sleeper);
      var _ := r.MinBackOffPeriodSupplier(Some(minBackOffPeriod));
      var _ := r.MaxBackOffPeriodSupplier(Some(maxBackOffPeriod));
      r.SetSleeper(sleeper);
    }
  }

  // ---------------------------------------------------------------------
  // The policy a template holds
  // ---------------------------------------------------------------------

  /** A `BackOffPolicy`. `NoBackOff` is `NoBackOffPolicy`; the fixed and
    * the uniform random policies are the `StatelessBackOffPolicy`
    * subclasses; `jitter` marks the randomised exponential variant. */
  datatype BackOffPolicy =
    | NoBackOff
    | Fixed(fixed: FixedBackOffPolicy)
    | UniformRandom(uniform: UniformRandomBackOffPolicy)
    | Exponential(exponential: ExponentialBackOffPolicy, jitter: bool)

  /** The policy object behind a backoff policy. */
  function PolicyObject(b: BackOffPolicy): set<object> {
    match b
    case NoBackOff => {}
    case Fixed(f) => {f}
    case UniformRandom(u) => {u}
    case Exponential(e, _) => {e}
  }

  /** The settings of a backoff policy at one moment, as a value. */
  datatype Pacing =
    | NoPause
    | FixedPause(period: int, sleeper: Sleeper)
    | RandomPause(min: int, max: int, sleeper: Sleeper, random: RandomSource)
    | ExponentialPause(start: ExpState, sleeper: Sleeper)

  function PacingOf(b: BackOffPolicy): (p: Pacing)
    reads PolicyObject(b)
  {
    match b
    case NoBackOff => NoPause
    case Fixed(f) => FixedPause(f.backOffPeriod, f.sleeper)
    case UniformRandom(u) => RandomPause(u.minBackOffPeriod, u.maxBackOffPeriod, u.sleeper, u.random)
    case Exponential(e, _) => ExponentialPause(e.StartState(), e.sleeper)
  }

  /** The objects one backoff may change besides its context: the sleeper
    * and the random source. */
  function Devices(p: Pacing): set<object> {
    match p
    case NoPause => {}
    case FixedPause(_, s) => {s}
    case RandomPause(_, _, s, r) => {s, r}
    case ExponentialPause(_, s) => {s}
  }

  /** `start`: the stateless policies return null; the exponential policy a
    * context at its settings. */
  function StartOf(p: Pacing): (r: Option<ExpState>)
    ensures r.Some? <==> p.ExponentialPause?
  {
    if p.ExponentialPause? then Some(p.start) else None
  }

  /** One backoff as values: the delay it asks the sleeper for (none for
    * `NoBackOffPolicy`), the draws it takes, and the context after it. */
  datatype Pause = Pause(delay: Option<int>, draws: nat, context: Option<ExpState>)

  function PauseOf(p: Pacing, context: Option<ExpState>, draw: nat): (r: Pause)
    requires p.ExponentialPause? ==> context.Some?
  {
    match p
    case NoPause => Pause(None, 0, context)
    case FixedPause(period, _) => Pause(Some(period), 0, context)
    case RandomPause(min, max, _, random) => Pause(Some(RandomDelay(min, max, random.source, draw)), DrawsTaken(min, max), context)
    case ExponentialPause(_, _) =>
      var step := NextSleep(context.value);
      Pause(Some(step.sleep), 0, Some(step.next))
  }

  /** `backOffPolicy.start(context)`: null for the stateless policies, a
    * fresh context at the exponential policy's settings otherwise. */
  method StartWith(b: BackOffPolicy) returns (c: ExponentialBackOffContext?)
    ensures c == null <==> StartOf(PacingOf(b)).None?
    ensures c != null ==> fresh(c) && StartOf(PacingOf(b)) == Some(c.State())
  {
    match b
    case Exponential(e, _) => c := e.Start();
    case _ => c := null;
  }

  /** `backOffPolicy.backOff(backOffContext)` as the template calls it. */
  method BackOffWith(b: BackOffPolicy, c: ExponentialBackOffContext?) returns (error: Option<Failure>)
    requires b.Exponential? ==> c != null
    modifies Devices(PacingOf(b)), c
    ensures var p := old(PacingOf(b));
            var r := PauseOf(p, if c == null then None else Some(old(c.State())), if p.RandomPause? then old(p.random.calls) else 0);
            && (r.delay.None? ==> error.None?)
            && (p.RandomPause? ==> p.random.calls == old(p.random.calls) + r.draws)
            && (c != null ==> r.context == Some(c.State()))
            && (c != null && !b.Exponential? ==> c.State() == old(c.State()))
            && (r.delay.Some? ==>
                  var s := p.sleeper;
                  s.slept == old(s.slept) + [r.delay.value] &&
                  error == if |old(s.slept)| in s.interrupts then Some(BackOffInterrupted()) else None)
  {
    match b
    case NoBackOff => error := None;
    case Fixed(f) => error := f.BackOff();
    case UniformRandom(u) => error := u.BackOff();
    case Exponential(e, _) => error := e.BackOff(c);
  }
}
