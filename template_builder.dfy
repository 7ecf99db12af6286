/** `RetryTemplateBuilder`: each kind of setting is chosen at most once
  * under argument checks, and `build` assembles a template whose policy
  * is the pessimistic composite of the base policy and the exception
  * policy. A failed check (an `IllegalArgumentException` from `Assert`)
  * is an `ok == false` answer that changes nothing. */
module TemplateBuilder {
  import opened Types
  import opened Classify
  import opened Policies
  import opened BackOffs
  import opened ClassifierBuilder
  import opened Execution
  import opened Templates
  import PolicyProps

  /** The values of a list whose elements are all present. */
  function Present<T>(xs: seq<Option<T>>): (r: seq<T>)
    requires forall i :: 0 <= i < |xs| ==> xs[i].Some?
    ensures |r| == |xs|
  {
    seq(|xs|, i requires 0 <= i < |xs| => xs[i].value)
  }

  /** `Present` of a list with one more element present. */
  lemma PresentAppend<T>(xs: seq<Option<T>>, x: Option<T>)
    requires forall i :: 0 <= i < |xs| ==> xs[i].Some?
    requires x.Some?
    ensures Present(xs + [x]) == Present(xs) + [x.value]
  {
    var a := Present(xs + [x]);
    var b := Present(xs) + [x.value];
    assert |a| == |b|;
    forall i | 0 <= i < |a|
      ensures a[i] == b[i]
    {
      if i < |xs| {
        assert (xs + [x])[i] == xs[i];
      }
    }
  }

  /** The first `n` classes of a list given to `retryOn(List)` or
    * `notRetryOn(List)` are all accepted: none is null, and the mode the
    * builder had allows the kind of list. */
  predicate Admits(ts: seq<Option<TypeId>>, n: nat, mode: Option<bool>, retryable: bool)
    requires n <= |ts|
  {
    (forall j :: 0 <= j < n ==> ts[j].Some?) && (n == 0 || mode != Some(!retryable))
  }

  /** The policy `build` installs: `CompositeRetryPolicy` in its default,
    * pessimistic mode over the base policy and then the exception policy. */
  function Assembled(base: Policy, exception: Policy): Policy {
    Composite([base, exception], false)
  }

  class RetryTemplateBuilder {
    var baseRetryPolicy: Option<Policy>
    var backOffPolicy: Option<BackOffPolicy>
    var listeners: Option<seq<RetryListener>>
    var classifierBuilder: BinaryExceptionClassifierBuilder?
    var retryOnPredicate: Option<Failure -> bool>

    ghost predicate Valid()
      reads this, classifierBuilder
    {
      classifierBuilder != null ==> classifierBuilder.Valid()
    }

    /** Nothing selected yet. */
    constructor ()
      ensures Valid()
      ensures baseRetryPolicy.None? && backOffPolicy.None? && listeners.None?
      ensures classifierBuilder == null && retryOnPredicate.None?
    {
      baseRetryPolicy := None;
      backOffPolicy := None;
      listeners := None;
      classifierBuilder := null;
      retryOnPredicate := None;
    }

    /** The classes added through `retryOn` / `notRetryOn` so far. */
    function Classes(): seq<TypeId>
      reads this, classifierBuilder
    {
      if classifierBuilder == null then [] else classifierBuilder.exceptionClasses
    }

    /** The classifier builder's mode: none yet, white list or black list. */
    function Mode(): Option<bool>
      reads this, classifierBuilder
    {
      if classifierBuilder == null then None else classifierBuilder.isWhiteList
    }

    function Traversing(): bool
      reads this, classifierBuilder
    {
      classifierBuilder != null && classifierBuilder.traverseCauses
    }

    /** The listeners added so far (`listenersList()` starts empty). */
    function ListenersSoFar(): seq<RetryListener>
      reads this
    {
      if listeners.Some? then listeners.value else []
    }

    // -------------------------------------------------------------------
    // The retry policy
    // -------------------------------------------------------------------

    /** `maxAttempts`: a positive count, and no base policy chosen before. */
    method MaxAttemptsPolicy(maxAttempts: int) returns (ok: bool)
      modifies this
      ensures ok <==> maxAttempts > 0 && old(baseRetryPolicy).None?
      ensures baseRetryPolicy == if ok then Some(MaxAttempts(maxAttempts)) else old(baseRetryPolicy)
      ensures backOffPolicy == old(backOffPolicy) && listeners == old(listeners)
      ensures classifierBuilder == old(classifierBuilder) && retryOnPredicate == old(retryOnPredicate)
    {
      if maxAttempts <= 0 || baseRetryPolicy.Some? {
        return false;
      }
      baseRetryPolicy := Some(MaxAttempts(maxAttempts));
      ok := true;
    }

    /** `withTimeout`: a positive timeout, and no base policy chosen before. */
    method WithTimeout(timeoutMillis: int) returns (ok: bool)
      modifies this
      ensures ok <==> timeoutMillis > 0 && old(baseRetryPolicy).None?
      ensures baseRetryPolicy == if ok then Some(Timeout(timeoutMillis)) else old(baseRetryPolicy)
      ensures backOffPolicy == old(backOffPolicy) && listeners == old(listeners)
      ensures classifierBuilder == old(classifierBuilder) && retryOnPredicate == old(retryOnPredicate)
    {
      if timeoutMillis <= 0 || baseRetryPolicy.Some? {
        return false;
      }
      baseRetryPolicy := Some(Timeout(timeoutMillis));
      ok := true;
    }

    /** `infiniteRetry`: no base policy chosen before. */
    method InfiniteRetry() returns (ok: bool)
      modifies this
      ensures ok <==> old(baseRetryPolicy).None?
      ensures baseRetryPolicy == Some(if ok then Always else old(baseRetryPolicy).value)
      ensures backOffPolicy == old(backOffPolicy) && listeners == old(listeners)
      ensures classifierBuilder == old(classifierBuilder) && retryOnPredicate == old(retryOnPredicate)
    {
      if baseRetryPolicy.Some? {
        return false;
      }
      baseRetryPolicy := Some(Always);
      ok := true;
    }

    /** `customPolicy`: a non-null policy, and no base policy chosen before. */
    method CustomPolicy(policy: Option<Policy>) returns (ok: bool)
      modifies this
      ensures ok <==> policy.Some? && old(baseRetryPolicy).None?
      ensures baseRetryPolicy == if ok then policy else old(baseRetryPolicy)
      ensures backOffPolicy == old(backOffPolicy) && listeners == old(listeners)
      ensures classifierBuilder == old(classifierBuilder) && retryOnPredicate == old(retryOnPredicate)
    {
      if policy.None? || baseRetryPolicy.Some? {
        return false;
      }
      baseRetryPolicy := policy;
      ok := true;
    }

    // -------------------------------------------------------------------
    // The backoff policy
    // -------------------------------------------------------------------

    /** `exponentialBackoff`: no backoff chosen before, an initial interval
      * of at least 1, a multiplier above 1 and a maximum above the initial
      * interval; `withRandom` picks the randomised variant. */
    method ExponentialBackoff(initialInterval: int, multiplier: real, maxInterval: int, withRandom: bool,
                              sleeper: Sleeper)
      returns (ok: bool)
      modifies this
      ensures ok <==> old(backOffPolicy).None? && initialInterval >= 1 && multiplier > 1.0 &&
                      maxInterval > initialInterval
      ensures ok ==> backOffPolicy.Some? && backOffPolicy.value.Exponential? &&
                     backOffPolicy.value.jitter == withRandom && fresh(backOffPolicy.value.exponential) &&
                     PacingOf(backOffPolicy.value) ==
                       ExponentialPause(ExpState(initialInterval, multiplier, maxInterval, None, None, None), sleeper)
      ensures !ok ==> backOffPolicy == old(backOffPolicy)
      ensures baseRetryPolicy == old(baseRetryPolicy) && listeners == old(listeners)
      ensures classifierBuilder == old(classifierBuilder) && retryOnPredicate == old(retryOnPredicate)
    {
      if backOffPolicy.Some? || initialInterval < 1 || multiplier <= 1.0 || maxInterval <= initialInterval {
        return false;
      }
      var policy := new ExponentialBackOffPolicy(sleeper);
      policy.SetInitialInterval(initialInterval);
      policy.SetMultiplier(multiplier);
      policy.SetMaxInterval(maxInterval);
      backOffPolicy := Some(Exponential(policy, withRandom));
      ok := true;
    }

    /** `fixedBackoff`: no backoff chosen before and an interval of at
      * least 1. */
    method FixedBackoff(interval: int, sleeper: Sleeper) returns (ok: bool)
      modifies this
      ensures ok <==> old(backOffPolicy).None? && interval >= 1
      ensures ok ==> backOffPolicy.Some? && backOffPolicy.value.Fixed? && fresh(backOffPolicy.value.fixed) &&
                     PacingOf(backOffPolicy.value) == FixedPause(interval, sleeper)
      ensures !ok ==> backOffPolicy == old(backOffPolicy)
      ensures baseRetryPolicy == old(baseRetryPolicy) && listeners == old(listeners)
      ensures classifierBuilder == old(classifierBuilder) && retryOnPredicate == old(retryOnPredicate)
    {
      if backOffPolicy.Some? || interval < 1 {
        return false;
      }
      var policy := new FixedBackOffPolicy(sleeper);
      policy.SetBackOffPeriod(interval);
      backOffPolicy := Some(Fixed(policy));
      ok := true;
    }

    /** `uniformRandomBackoff`: no backoff chosen before, both bounds at
      * least 1 and the maximum above the minimum. */
    method UniformRandomBackoff(minInterval: int, maxInterval: int, sleeper: Sleeper, random: RandomSource)
      returns (ok: bool)
      modifies this
      ensures ok <==> old(backOffPolicy).None? && minInterval >= 1 && maxInterval >= 1 && maxInterval > minInterval
      ensures ok ==> backOffPolicy.Some? && backOffPolicy.value.UniformRandom? && fresh(backOffPolicy.value.uniform) &&
                     PacingOf(backOffPolicy.value) == RandomPause(minInterval, maxInterval, sleeper, random)
      ensures !ok ==> backOffPolicy == old(backOffPolicy)
      ensures baseRetryPolicy == old(baseRetryPolicy) && listeners == old(listeners)
      ensures classifierBuilder == old(classifierBuilder) && retryOnPredicate == old(retryOnPredicate)
    {
      if backOffPolicy.Some? || minInterval < 1 || maxInterval < 1 || maxInterval <= minInterval {
        return false;
      }
      var policy := new UniformRandomBackOffPolicy(random, sleeper);
      policy.SetMinBackOffPeriod(minInterval);
      policy.SetMaxBackOffPeriod(maxInterval);
      backOffPolicy := Some(UniformRandom(policy));
      ok := true;
    }

    /** `noBackoff`: no backoff chosen before. */
    method NoBackoff() returns (ok: bool)
      modifies this
      ensures ok <==> old(backOffPolicy).None?
      ensures backOffPolicy == Some(if ok then NoBackOff else old(backOffPolicy).value)
      ensures baseRetryPolicy == old(baseRetryPolicy) && listeners == old(listeners)
      ensures classifierBuilder == old(classifierBuilder) && retryOnPredicate == old(retryOnPredicate)
    {
      if backOffPolicy.Some? {
        return false;
      }
      backOffPolicy := Some(NoBackOff);
      ok := true;
    }

    /** `customBackoff`: no backoff chosen before, and a non-null policy. */
    method CustomBackoff(policy: Option<BackOffPolicy>) returns (ok: bool)
      modifies this
      ensures ok <==> old(backOffPolicy).None? && policy.Some?
      ensures backOffPolicy == if ok then policy else old(backOffPolicy)
      ensures baseRetryPolicy == old(baseRetryPolicy) && listeners == old(listeners)
      ensures classifierBuilder == old(classifierBuilder) && retryOnPredicate == old(retryOnPredicate)
    {
      if backOffPolicy.Some? || policy.None? {
        return false;
      }
      backOffPolicy := policy;
      ok := true;
    }

    // -------------------------------------------------------------------
    // The exception classifier
    // -------------------------------------------------------------------

    /** `classifierBuilder()`: the classifier builder, created empty on
      * first use. */
    method ClassifierBuilderOf() returns (b: BinaryExceptionClassifierBuilder)
      requires Valid()
      modifies this
      ensures Valid() && b == classifierBuilder
      ensures old(classifierBuilder) != null ==> b == old(classifierBuilder)
      ensures old(classifierBuilder) == null ==>
                fresh(b) && b.isWhiteList.None? && !b.traverseCauses && b.exceptionClasses == []
      ensures baseRetryPolicy == old(baseRetryPolicy) && backOffPolicy == old(backOffPolicy)
      ensures listeners == old(listeners) && retryOnPredicate == old(retryOnPredicate)
    {
      if classifierBuilder == null {
        classifierBuilder := new BinaryExceptionClassifierBuilder();
      }
      b := classifierBuilder;
    }

    /** `retryOn(Class)`: the class joins a white list; refused after
      * `notRetryOn` or for a null class. A predicate set before is not
      * checked, and `build` then ignores the classes. */
    method RetryOn(t: Option<TypeId>) returns (ok: bool)
      requires Valid()
      modifies this, classifierBuilder
      ensures Valid() && classifierBuilder != null
      ensures old(classifierBuilder) != null ==> classifierBuilder == old(classifierBuilder)
      ensures old(classifierBuilder) == null ==> fresh(classifierBuilder)
      ensures ok <==> old(Mode()) != Some(false) && t.Some?
      ensures ok ==> Mode() == Some(true) && Classes() == old(Classes()) + [t.value]
      ensures !ok ==> Mode() == old(Mode()) && Classes() == old(Classes())
      ensures Traversing() == old(Traversing())
      ensures baseRetryPolicy == old(baseRetryPolicy) && backOffPolicy == old(backOffPolicy)
      ensures listeners == old(listeners) && retryOnPredicate == old(retryOnPredicate)
    {
      var b := ClassifierBuilderOf();
      ok := b.RetryOn(t);
    }

    /** `notRetryOn(Class)`: the class joins a black list; refused after
      * `retryOn` or for a null class. */
    method NotRetryOn(t: Option<TypeId>) returns (ok: bool)
      requires Valid()
      modifies this, classifierBuilder
      ensures Valid() && classifierBuilder != null
      ensures old(classifierBuilder) != null ==> classifierBuilder == old(classifierBuilder)
      ensures old(classifierBuilder) == null ==> fresh(classifierBuilder)
      ensures ok <==> old(Mode()) != Some(true) && t.Some?
      ensures ok ==> Mode() == Some(false) && Classes() == old(Classes()) + [t.value]
      ensures !ok ==> Mode() == old(Mode()) && Classes() == old(Classes())
      ensures Traversing() == old(Traversing())
      ensures baseRetryPolicy == old(baseRetryPolicy) && backOffPolicy == old(backOffPolicy)
      ensures listeners == old(listeners) && retryOnPredicate == old(retryOnPredicate)
    {
      var b := ClassifierBuilderOf();
      ok := b.NotRetryOn(t);
    }

    /** `retryOn(List)` and `notRetryOn(List)`: the classes one by one, up
      * to the first that is refused. The classifier builder is created at
      * the first class, so an empty list leaves it as it was. */
    method AddEach(ts: seq<Option<TypeId>>, retryable: bool) returns (ok: bool)
      requires Valid()
      modifies this, classifierBuilder
      ensures Valid()
      ensures ok <==> Admits(ts, |ts|, old(Mode()), retryable)
      ensures ok ==> Classes() == old(Classes()) + Present(ts)
      ensures ok && |ts| > 0 ==> Mode() == Some(retryable)
      ensures old(Classes()) <= Classes()
      ensures Traversing() == old(Traversing())
      ensures baseRetryPolicy == old(baseRetryPolicy) && backOffPolicy == old(backOffPolicy)
      ensures listeners == old(listeners) && retryOnPredicate == old(retryOnPredicate)
    {
      ok := true;
      if |ts| == 0 {
        return;
      }
      ghost var mode0 := Mode();
      ghost var classes0 := Classes();
      var b := ClassifierBuilderOf();
      var i := 0;
      while i < |ts| && ok
        modifies b
        invariant 0 <= i <= |ts| && b == classifierBuilder && b.Valid()
        invariant ok <==> Admits(ts, i, mode0, retryable)
        invariant ok ==> b.isWhiteList == if i == 0 then mode0 else Some(retryable)
        invariant ok ==> b.exceptionClasses == classes0 + Present(ts[..i])
        invariant classes0 <= b.exceptionClasses
        invariant b.traverseCauses == old(Traversing())
        decreases |ts| - i
      {
        if retryable {
          ok := b.RetryOn(ts[i]);
        } else {
          ok := b.NotRetryOn(ts[i]);
        }
        if ok {
          assert ts[..i + 1] == ts[..i] + [ts[i]];
          PresentAppend(ts[..i], ts[i]);
        }
        i := i + 1;
      }
      if ok {
        assert ts[..i] == ts;
      }
    }

    /** `retryOn(Predicate)`: refused once classes or a predicate are set,
      * and for a null predicate. */
    method RetryOnPredicate(test: Option<Failure -> bool>) returns (ok: bool)
      modifies this
      ensures ok <==> old(classifierBuilder) == null && old(retryOnPredicate).None? && test.Some?
      ensures retryOnPredicate == if ok then test else old(retryOnPredicate)
      ensures baseRetryPolicy == old(baseRetryPolicy) && backOffPolicy == old(backOffPolicy)
      ensures listeners == old(listeners) && classifierBuilder == old(classifierBuilder)
    {
      if classifierBuilder != null || retryOnPredicate.Some? || test.None? {
        return false;
      }
      retryOnPredicate := test;
      ok := true;
    }

    /** `traversingCauses`: the classifier will walk cause chains. */
    method TraversingCauses()
      requires Valid()
      modifies this, classifierBuilder
      ensures Valid() && Traversing()
      ensures Mode() == old(Mode()) && Classes() == old(Classes())
      ensures baseRetryPolicy == old(baseRetryPolicy) && backOffPolicy == old(backOffPolicy)
      ensures listeners == old(listeners) && retryOnPredicate == old(retryOnPredicate)
    {
      var b := ClassifierBuilderOf();
      b.TraversingCauses();
    }

    // -------------------------------------------------------------------
    // Listeners
    // -------------------------------------------------------------------

    /** `withListener`: a non-null listener is appended. */
    method WithListener(listener: Option<RetryListener>) returns (ok: bool)
      modifies this
      ensures ok <==> listener.Some?
      ensures listeners == if ok then Some(old(ListenersSoFar()) + [listener.value]) else old(listeners)
      ensures baseRetryPolicy == old(baseRetryPolicy) && backOffPolicy == old(backOffPolicy)
      ensures classifierBuilder == old(classifierBuilder) && retryOnPredicate == old(retryOnPredicate)
    {
      if listener.None? {
        return false;
      }
      listeners := Some(ListenersSoFar() + [listener.value]);
      ok := true;
    }

    /** `withListeners`: every listener is checked first; then all are
      * appended in order. */
    method WithListeners(ls: seq<Option<RetryListener>>) returns (ok: bool)
      modifies this
      ensures ok <==> forall i :: 0 <= i < |ls| ==> ls[i].Some?
      ensures listeners == if ok then Some(old(ListenersSoFar()) + Present(ls)) else old(listeners)
      ensures baseRetryPolicy == old(baseRetryPolicy) && backOffPolicy == old(backOffPolicy)
      ensures classifierBuilder == old(classifierBuilder) && retryOnPredicate == old(retryOnPredicate)
    {
      var i := 0;
      while i < |ls|
        invariant 0 <= i <= |ls|
        invariant forall j :: 0 <= j < i ==> ls[j].Some?
      {
        if ls[i].None? {
          return false;
        }
        i := i + 1;
      }
      listeners := Some(ListenersSoFar() + Present(ls));
      ok := true;
    }

    // -------------------------------------------------------------------
    // build
    // -------------------------------------------------------------------

    /** The exception policy `build` makes: the predicate's when one is
      * set, else a classifier policy over the default classifier or the
      * built one; none when the classifier builder holds no class, where
      * its `build` is refused. */
    function ExceptionPolicy(): (p: Option<Policy>)
      requires Valid()
      reads this, classifierBuilder
      ensures p.None? <==> retryOnPredicate.None? && classifierBuilder != null && Classes() == []
    {
      if retryOnPredicate.Some? then Some(Predicate(retryOnPredicate.value))
      else if classifierBuilder == null then Some(BinaryClassifier(DefaultRule()))
      else if classifierBuilder.exceptionClasses == [] then None
      else Some(BinaryClassifier(ListedRule(classifierBuilder.exceptionClasses, classifierBuilder.isWhiteList.value)
                                   .(traverseCauses := classifierBuilder.traverseCauses)))
    }

    /** `build`: the base policy defaults to three attempts (and is stored
      * back); the exception policy follows `ExceptionPolicy`; the backoff
      * defaults to none (and is stored back); the listeners are set only
      * when some were added. A classifier builder with no class makes
      * `build` fail after the base policy was stored. */
    method Build() returns (t: RetryTemplate?)
      requires Valid()
      modifies this
      ensures t == null <==> old(ExceptionPolicy()).None?
      ensures baseRetryPolicy == Some(if old(baseRetryPolicy).Some? then old(baseRetryPolicy).value else MaxAttempts(DEFAULT_MAX_ATTEMPTS))
      ensures t == null ==> backOffPolicy == old(backOffPolicy)
      ensures t != null ==>
                && fresh(t) && fresh(t.retryContextCache)
                && t.retryPolicy == Assembled(baseRetryPolicy.value, old(ExceptionPolicy()).value)
                && backOffPolicy == Some(if old(backOffPolicy).Some? then old(backOffPolicy).value else NoBackOff)
                && t.backOffPolicy == backOffPolicy.value
                && t.listeners == old(ListenersSoFar())
                && t.retryContextCache.entries == map[] && !t.throwLastExceptionOnExhausted
      ensures listeners == old(listeners) && classifierBuilder == old(classifierBuilder)
      ensures retryOnPredicate == old(retryOnPredicate)
    {
      var template := new RetryTemplate();
      if baseRetryPolicy.None? {
        baseRetryPolicy := Some(MaxAttempts(DEFAULT_MAX_ATTEMPTS));
      }
      var exceptionRetryPolicy;
      if retryOnPredicate.None? {
        var rule;
        if classifierBuilder == null {
          rule := DefaultRule();
        } else {
          var classifier := classifierBuilder.Build();
          if classifier == null {
            return null;
          }
          rule := classifier.Rule();
        }
        exceptionRetryPolicy := BinaryClassifier(rule);
      } else {
        exceptionRetryPolicy := Predicate(retryOnPredicate.value);
      }
      template.SetRetryPolicy(Assembled(baseRetryPolicy.value, exceptionRetryPolicy));
      if backOffPolicy.None? {
        backOffPolicy := Some(NoBackOff);
      }
      template.SetBackOffPolicy(backOffPolicy.value);
      if listeners.Some? {
        template.SetListeners(listeners.value);
      }
      t := template;
    }
  }

  // ---------------------------------------------------------------------
  // Properties of the assembled policy
  // ---------------------------------------------------------------------

  /** The built template retries only when both the base policy and the
    * exception policy allow it, and asks both. */
  lemma AssembledNeedsBoth(base: Policy, exception: Policy, s: CtxState, now: int)
    requires WellFormed(base) && WellFormed(exception)
    requires Fits(Assembled(base, exception), s)
    ensures WellFormed(Assembled(base, exception))
    ensures var d := CanRetry(Assembled(base, exception), s, now);
            && (d.answer <==> CanRetry(base, s.ext.children[0], now).answer &&
                              CanRetry(exception, s.ext.children[1], now).answer)
            && d.state.ext.children == [CanRetry(base, s.ext.children[0], now).state,
                                        CanRetry(exception, s.ext.children[1], now).state]
  {
    var ps := [base, exception];
    PolicyProps.CompositePessimistic(ps, s, now);
    var d := CanRetry(Assembled(base, exception), s, now);
    assert |d.state.ext.children| == 2;
  }

  /** The built template's `getMaxAttempts` is the base count limit's: the
    * exception policy declares none. */
  lemma AssembledMaxAttempts(m: int, exception: Policy)
    requires exception.BinaryClassifier? || exception.Predicate?
    requires m != NO_MAXIMUM_ATTEMPTS_SET
    ensures MaxAttemptsOf(Assembled(MaxAttempts(m), exception)) == m
  {
    var ps := [MaxAttempts(m), exception];
    assert DeclaredMinimum(ps, 2) == NO_MAXIMUM_ATTEMPTS_SET;
    assert DeclaredMinimum(ps, 1) == NO_MAXIMUM_ATTEMPTS_SET;
  }

  /** A builder left untouched builds three attempts at any `Exception`,
    * no backoff and no listeners. */
  method BuildDefault() returns (t: RetryTemplate)
    ensures fresh(t)
    ensures t.retryPolicy == Assembled(MaxAttempts(DEFAULT_MAX_ATTEMPTS), BinaryClassifier(DefaultRule()))
    ensures MaxAttemptsOf(t.retryPolicy) == 3
    ensures t.backOffPolicy == NoBackOff && t.listeners == []
  {
    var b := new RetryTemplateBuilder();
    var r := b.Build();
    t := r;
    AssembledMaxAttempts(DEFAULT_MAX_ATTEMPTS, BinaryClassifier(DefaultRule()));
  }

  /** A second base policy is refused whatever the first was. */
  method SecondBasePolicyRefused(m: int, timeout: int) returns (first: bool, second: bool)
    requires m > 0
    ensures first && !second
  {
    var b := new RetryTemplateBuilder();
    first := b.MaxAttemptsPolicy(m);
    second := b.WithTimeout(timeout);
  }
}
