/** `BackOffPolicyBuilder`: collects a delay, a maximum delay, a
  * multiplier, a random flag, a sleeper and suppliers for four of them,
  * then picks an exponential, a uniform random or a fixed backoff. A
  * supplier is the value it yields; a null supplier is `None`. The
  * default sleeper of the policy built and its random source are
  * parameters of `Build`. */
module BackOffBuilder {
  import opened Types
  import opened BackOffs
  import BackOffProps

  const DEFAULT_INITIAL_DELAY: int := 1000

  /** The builder's fields at one moment. `delay` is never null: it starts
    * at the default and its only setter takes a primitive. */
  datatype BuilderSettings = BuilderSettings(delay: int, maxDelay: Option<int>, multiplier: Option<real>,
                                             random: Option<bool>, sleeper: Sleeper?,
                                             delaySupplier: Option<int>, maxDelaySupplier: Option<int>,
                                             multiplierSupplier: Option<real>, randomSupplier: Option<bool>)

  /** The settings of `newBuilder()`. */
  function Defaults(): BuilderSettings {
    BuilderSettings(DEFAULT_INITIAL_DELAY, None, None, None, null, None, None, None, None)
  }

  /** The exponential family is chosen when a multiplier is set and it is
    * positive or a multiplier supplier is set as well. */
  predicate Multiplied(s: BuilderSettings) {
    s.multiplier.Some? && (s.multiplier.value > 0.0 || s.multiplierSupplier.Some?)
  }

  /** The uniform random policy is chosen otherwise when the maximum delay
    * exceeds the delay. */
  predicate Spread(s: BuilderSettings) {
    s.maxDelay.Some? && s.maxDelay.value > s.delay
  }

  /** `isRandom`: the random supplier yields true or the flag is true. */
  predicate IsRandom(s: BuilderSettings) {
    s.randomSupplier == Some(true) || s.random == Some(true)
  }

  /** The builder's sleeper, or the built policy's own default. */
  function SleeperOf(s: BuilderSettings, defaultSleeper: Sleeper): Sleeper {
    if s.sleeper != null then s.sleeper else defaultSleeper
  }

  /** The settings an exponential policy is given: the clamping setters,
    * then each supplier that is set. A maximum delay not above the delay
    * gives the policy's default maximum. */
  function ExponentialStart(s: BuilderSettings): ExpState
    requires s.multiplier.Some?
  {
    ExpState(AtLeastOne(s.delay), MultiplierAtLeastOne(s.multiplier.value),
             if Spread(s) then AtLeastOne(s.maxDelay.value) else DEFAULT_MAX_INTERVAL,
             s.delaySupplier, s.multiplierSupplier, s.maxDelaySupplier)
  }

  /** The pacing of the policy `build` returns. */
  function PacingFor(s: BuilderSettings, defaultSleeper: Sleeper, random: RandomSource): Pacing {
    var sleeper := SleeperOf(s, defaultSleeper);
    var low := if s.delaySupplier.Some? then s.delaySupplier.value else AtLeastOne(s.delay);
    if Multiplied(s) then ExponentialPause(ExponentialStart(s), sleeper)
    else if Spread(s) then
      RandomPause(low, if s.maxDelaySupplier.Some? then s.maxDelaySupplier.value else AtLeastOne(s.maxDelay.value),
                  sleeper, random)
    else FixedPause(low, sleeper)
  }

  class BackOffPolicyBuilder {
    var delay: int
    var maxDelay: Option<int>
    var multiplier: Option<real>
    var random: Option<bool>
    var sleeper: Sleeper?
    var delaySupplier: Option<int>
    var maxDelaySupplier: Option<int>
    var multiplierSupplier: Option<real>
    var randomSupplier: Option<bool>

    function Settings(): BuilderSettings
      reads this
    {
      BuilderSettings(delay, maxDelay, multiplier, random, sleeper,
                      delaySupplier, maxDelaySupplier, multiplierSupplier, randomSupplier)
    }

    /** `newBuilder`: the delay at its default, everything else unset. */
    constructor ()
      ensures Settings() == Defaults()
    {
      delay := DEFAULT_INITIAL_DELAY;
      maxDelay := None;
      multiplier := None;
      random := None;
      sleeper := null;
      delaySupplier := None;
      maxDelaySupplier := None;
      multiplierSupplier := None;
      randomSupplier := None;
    }

    method Delay(d: int)
      modifies this
      ensures Settings() == old(Settings()).(delay := d)
    {
      delay := d;
    }

    method MaxDelay(d: int)
      modifies this
      ensures Settings() == old(Settings()).(maxDelay := Some(d))
    {
      maxDelay := Some(d);
    }

    method Multiplier(m: real)
      modifies this
      ensures Settings() == old(Settings()).(multiplier := Some(m))
    {
      multiplier := Some(m);
    }

    method Random(r: bool)
      modifies this
      ensures Settings() == old(Settings()).(random := Some(r))
    {
      random := Some(r);
    }

    method WithSleeper(s: Sleeper?)
      modifies this
      ensures Settings() == old(Settings()).(sleeper := s)
    {
      sleeper := s;
    }

    /** The supplier setters store null as well. */
    method DelaySupplier(supplier: Option<int>)
      modifies this
      ensures Settings() == old(Settings()).(delaySupplier := supplier)
    {
      delaySupplier := supplier;
    }

    method MaxDelaySupplier(supplier: Option<int>)
      modifies this
      ensures Settings() == old(Settings()).(maxDelaySupplier := supplier)
    {
      maxDelaySupplier := supplier;
    }

    method MultiplierSupplier(supplier: Option<real>)
      modifies this
      ensures Settings() == old(Settings()).(multiplierSupplier := supplier)
    {
      multiplierSupplier := supplier;
    }

    method RandomSupplier(supplier: Option<bool>)
      modifies this
      ensures Settings() == old(Settings()).(randomSupplier := supplier)
    {
      randomSupplier := supplier;
    }

    /** `build`: a new policy whose settings are those `PacingFor` gives;
      * the exponential one is randomised exactly when `isRandom` holds.
      * The builder itself is left as it is. */
    method Build(defaultSleeper: Sleeper, randomSource: RandomSource) returns (r: BackOffPolicy)
      ensures fresh(PolicyObject(r))
      ensures PacingOf(r) == PacingFor(Settings(), defaultSleeper, randomSource)
      ensures r.Exponential? ==> (r.jitter <==> IsRandom(Settings()))
    {
      if multiplier.Some? && (multiplier.value > 0.0 || multiplierSupplier.Some?) {
        var e := BuildExponential(defaultSleeper);
        return Exponential(e, randomSupplier == Some(true) || random == Some(true));
      }
      if maxDelay.Some? && maxDelay.value > delay {
        var u := BuildUniform(defaultSleeper, randomSource);
        return UniformRandom(u);
      }
      var f := BuildFixed(defaultSleeper);
      r := Fixed(f);
    }

    /** The exponential branch of `build`. */
    method BuildExponential(defaultSleeper: Sleeper) returns (e: ExponentialBackOffPolicy)
      requires Multiplied(Settings())
      ensures fresh(e)
      ensures e.StartState() == ExponentialStart(Settings()) && e.sleeper == SleeperOf(Settings(), defaultSleeper)
    {
      e := new ExponentialBackOffPolicy(defaultSleeper);
      e.SetInitialInterval(delay);
      if delaySupplier.Some? {
        var _ := e.InitialIntervalSupplier(delaySupplier);
      }
      e.SetMultiplier(multiplier.value);
      if multiplierSupplier.Some? {
        var _ := e.MultiplierSupplier(multiplierSupplier);
      }
      if maxDelay.Some? {
        e.SetMaxInterval(if maxDelay.value > delay then maxDelay.value else DEFAULT_MAX_INTERVAL);
      }
      if maxDelaySupplier.Some? {
        var _ := e.MaxIntervalSupplier(maxDelaySupplier);
      }
      if sleeper != null {
        e.SetSleeper(sleeper);
      }
    }

    /** The uniform random branch of `build`. */
    method BuildUniform(defaultSleeper: Sleeper, randomSource: RandomSource) returns (u: UniformRandomBackOffPolicy)
      requires Spread(Settings())
      ensures fresh(u) && u.random == randomSource && u.sleeper == SleeperOf(Settings(), defaultSleeper)
      ensures u.minBackOffPeriod == if delaySupplier.Some? then delaySupplier.value else AtLeastOne(delay)
      ensures u.maxBackOffPeriod == if maxDelaySupplier.Some? then maxDelaySupplier.value else AtLeastOne(maxDelay.value)
    {
      u := new UniformRandomBackOffPolicy(randomSource, defaultSleeper);
      u.SetMinBackOffPeriod(delay);
      if delaySupplier.Some? {
        var _ := u.MinBackOffPeriodSupplier(delaySupplier);
      }
      u.SetMaxBackOffPeriod(maxDelay.value);
      if maxDelaySupplier.Some? {
        var _ := u.MaxBackOffPeriodSupplier(maxDelaySupplier);
      }
      if sleeper != null {
        u.SetSleeper(sleeper);
      }
    }

    /** The fixed branch of `build`: the delay supplier takes precedence
      * over the delay. */
    method BuildFixed(defaultSleeper: Sleeper) returns (f: FixedBackOffPolicy)
      ensures fresh(f) && f.sleeper == SleeperOf(Settings(), defaultSleeper)
      ensures f.backOffPeriod == if delaySupplier.Some? then delaySupplier.value else AtLeastOne(delay)
    {
      f := new FixedBackOffPolicy(defaultSleeper);
      if delaySupplier.Some? {
        var _ := f.BackOffPeriodSupplier(delaySupplier);
      } else {
        f.SetBackOffPeriod(delay);
      }
      if sleeper != null {
        f.SetSleeper(sleeper);
      }
    }
  }

  /** `newDefaultPolicy`: a fixed backoff of one second on the default sleeper. */
  method NewDefaultPolicy(defaultSleeper: Sleeper, randomSource: RandomSource) returns (r: BackOffPolicy)
    ensures fresh(PolicyObject(r))
    ensures r.Fixed? && r.fixed.backOffPeriod == DEFAULT_INITIAL_DELAY && r.fixed.sleeper == defaultSleeper
  {
    var b := new BackOffPolicyBuilder();
    r := b.Build(defaultSleeper, randomSource);
    DefaultIsFixed(defaultSleeper, randomSource);
  }

  // ---------------------------------------------------------------------
  // What the choice guarantees
  // ---------------------------------------------------------------------

  /** The exponential family is built exactly when a multiplier is set and
    * is positive or has a supplier; the uniform random policy exactly when
    * it is not and the maximum delay exceeds the delay; the fixed policy
    * in every other case. Some policy that pauses is always built. */
  lemma ChoiceRules(s: BuilderSettings, d: Sleeper, random: RandomSource)
    ensures PacingFor(s, d, random).ExponentialPause? <==>
              s.multiplier.Some? && (s.multiplier.value > 0.0 || s.multiplierSupplier.Some?)
    ensures PacingFor(s, d, random).RandomPause? <==>
              !Multiplied(s) && s.maxDelay.Some? && s.maxDelay.value > s.delay
    ensures PacingFor(s, d, random).FixedPause? <==> !Multiplied(s) && !Spread(s)
    ensures !PacingFor(s, d, random).NoPause?
  {
  }

  /** A multiplier supplier alone does not select the exponential family,
    * and neither does a multiplier that is not positive without one. */
  lemma SupplierAloneIsNotExponential(s: BuilderSettings, d: Sleeper, random: RandomSource)
    requires s.multiplier.None? || (s.multiplier.value <= 0.0 && s.multiplierSupplier.None?)
    ensures !PacingFor(s, d, random).ExponentialPause?
  {
  }

  /** The exponential policy's maximum is the maximum delay when that
    * exceeds the delay and 30 seconds otherwise; without a maximum supplier
    * no delay of its schedule exceeds it. */
  lemma {:induction false} ExponentialCap(s: BuilderSettings, d: Sleeper, random: RandomSource, n: nat)
    requires Multiplied(s)
    ensures var p := PacingFor(s, d, random);
            && p.ExponentialPause?
            && p.start.maxInterval == (if Spread(s) then AtLeastOne(s.maxDelay.value) else 30000)
            && (s.maxDelaySupplier.None? ==>
                  forall i :: 0 <= i < n ==> Sleeps(p.start, n)[i] <= p.start.maxInterval)
  {
    var p := PacingFor(s, d, random);
    if s.maxDelaySupplier.None? {
      assert CurrentMax(p.start) == p.start.maxInterval;
    }
  }

  /** Without suppliers and with a delay of at least one, the uniform
    * random policy pauses at least the delay and less than the maximum. */
  lemma UniformBetweenDelays(s: BuilderSettings, d: Sleeper, random: RandomSource, n: nat)
    requires !Multiplied(s) && Spread(s) && s.delay >= 1
    requires s.delaySupplier.None? && s.maxDelaySupplier.None?
    ensures var p := PacingFor(s, d, random);
            && p.RandomPause? && p.min == s.delay && p.max == s.maxDelay.value
            && s.delay <= RandomDelay(p.min, p.max, random.source, n) < s.maxDelay.value
  {
    BackOffProps.RandomDelayRange(s.delay, s.maxDelay.value, random.source, n);
  }

  /** The fixed policy pauses for the delay supplier's value when there is
    * one, and for the delay, at least one, otherwise. */
  lemma FixedDelayPrecedence(s: BuilderSettings, d: Sleeper, random: RandomSource)
    requires !Multiplied(s) && !Spread(s)
    ensures var p := PacingFor(s, d, random);
            && p.FixedPause?
            && p.period == if s.delaySupplier.Some? then s.delaySupplier.value else AtLeastOne(s.delay)
  {
  }

  /** Whichever policy is built sleeps on the builder's sleeper when one
    * was given and on its own default otherwise. */
  lemma SleeperPassedOn(s: BuilderSettings, d: Sleeper, random: RandomSource)
    ensures var p := PacingFor(s, d, random);
            !p.NoPause? && p.sleeper == if s.sleeper != null then s.sleeper else d
  {
  }

  /** The default policy pauses one second between attempts. */
  lemma DefaultIsFixed(d: Sleeper, random: RandomSource)
    ensures PacingFor(Defaults(), d, random) == FixedPause(1000, d)
  {
  }
}
