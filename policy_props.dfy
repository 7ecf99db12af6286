/** Properties of the retry policies: what `canRetry` answers for each
  * policy, how registering failures moves a context, the composite's two
  * modes, the exception-dispatched policy's child contexts and the
  * circuit breaker's transitions. */
module PolicyProps {
  import opened Types
  import opened Classify
  import opened Policies
  import ClassifyProps
  import ClassifierBuilder

  /** The policies whose context is a plain `RetryContextSupport`. */
  predicate Plain(p: Policy) {
    p.MaxAttempts? || p.Predicate? || p.BinaryClassifier? || p.Simple? || p.Timeout?
  }

  /** Registering failures leaves the subclass fields of a plain context
    * as they were. */
  lemma {:induction false} RegisterAllKeepsExt(p: Policy, s: CtxState, errs: seq<Failure>, now: int)
    requires Plain(p) && WellFormed(p) && Fits(p, s)
    ensures RegisterAll(p, s, errs, now).ext == s.ext
    decreases |errs|
  {
    if |errs| > 0 {
      RegisterAllKeepsExt(p, Register(p, s, Some(errs[0]), now), errs[1..], now);
    }
  }

  // ---------------------------------------------------------------------
  // MaxAttemptsRetryPolicy
  // ---------------------------------------------------------------------

  /** After `errs` failures on a freshly opened context a retry is allowed
    * exactly while fewer than `maxAttempts` failures were registered; so
    * after `maxAttempts` failures it is refused. */
  lemma MaxAttemptsAllowsFewerThanLimit(m: int, errs: seq<Failure>, now: int, later: int)
    ensures var p := MaxAttempts(m);
      CanRetry(p, RegisterAll(p, Open(p, now), errs, now), later).answer <==> |errs| < m
  {
    var p := MaxAttempts(m);
    RegisterAllKeepsExt(p, Open(p, now), errs, now);
  }

  /** The default limit of a count-limit policy and of a simple policy. */
  lemma DefaultLimits()
    ensures MaxAttemptsOf(MaxAttempts(DEFAULT_MAX_ATTEMPTS)) == 3
    ensures MaxAttemptsOf(DefaultSimple()) == 3
  {
  }

  // ---------------------------------------------------------------------
  // NeverRetryPolicy and AlwaysRetryPolicy
  // ---------------------------------------------------------------------

  lemma NeverAllowsFirstAttempt(now: int, later: int)
    ensures CanRetry(Never, Open(Never, now), later).answer
  {
  }

  /** Once `finished` is set, more registrations keep it set. */
  lemma {:induction false} NeverStaysFinished(s: CtxState, errs: seq<Failure>, now: int)
    requires s.ext == NeverCtx(true)
    ensures RegisterAll(Never, s, errs, now).ext == NeverCtx(true)
    decreases |errs|
  {
    if |errs| > 0 {
      NeverStaysFinished(Register(Never, s, Some(errs[0]), now), errs[1..], now);
    }
  }

  /** After any registration, null error included, a never-retry policy
    * refuses for good; the registration still counts a non-null error
    * and leaves the exhausted-only flag alone. */
  lemma NeverRefusesAfterRegistration(s: CtxState, t: Option<Failure>, errs: seq<Failure>, now: int, later: int)
    requires Fits(Never, s)
    ensures var r := RegisterAll(Never, Register(Never, s, t, now), errs, now);
      !CanRetry(Never, r, later).answer &&
      r.exhaustedOnly == s.exhaustedOnly &&
      r.count == s.count + |errs| + (if t.Some? then 1 else 0)
  {
    NeverStaysFinished(Register(Never, s, t, now), errs, now);
  }

  /** An always-retry policy allows every attempt, whatever was registered,
    * and still counts the failures on its inherited context. */
  lemma AlwaysAllows(errs: seq<Failure>, now: int, later: int)
    ensures var r := RegisterAll(Always, Open(Always, now), errs, now);
      CanRetry(Always, r, later).answer && r.count == |errs| && r.ext.NeverCtx?
  {
  }

  // ---------------------------------------------------------------------
  // TimeoutRetryPolicy
  // ---------------------------------------------------------------------

  /** The window is fixed when the context opens: at time `later` a retry
    * is allowed exactly when `later - start <= timeout` of the policy as it
    * was at open, whatever it was set to since and whatever failures were
    * registered. */
  lemma TimeoutWindowFixedAtOpen(timeout: int, changed: int, start: int, errs: seq<Failure>, now: int, later: int)
    ensures var r := RegisterAll(Timeout(timeout), Open(Timeout(timeout), start), errs, now);
      (CanRetry(Timeout(changed), r, later).answer <==> later - start <= timeout) &&
      r.count == |errs|
  {
    RegisterAllKeepsExt(Timeout(timeout), Open(Timeout(timeout), start), errs, now);
  }

  lemma DefaultTimeout(start: int, later: int)
    ensures CanRetry(Timeout(DEFAULT_TIMEOUT), Open(Timeout(DEFAULT_TIMEOUT), start), later).answer <==>
            later - start <= 1000
  {
  }

  // ---------------------------------------------------------------------
  // PredicateRetryPolicy and BinaryExceptionClassifierRetryPolicy
  // ---------------------------------------------------------------------

  /** Before any failure the predicate policy allows a retry; after failures
    * it answers the predicate on the last one, however many there were. */
  lemma PredicateFollowsLastError(test: Failure -> bool, errs: seq<Failure>, now: int, later: int)
    ensures var p := Predicate(test);
      var r := RegisterAll(p, Open(p, now), errs, now);
      CanRetry(p, r, later).answer == (|errs| == 0 || test(errs[|errs| - 1])) &&
      r.count == |errs|
  {
  }

  lemma NullPredicateRefused()
    ensures NewPredicatePolicy(None).None?
  {
  }

  /** The classifier policy answers the classifier's verdict on the last
    * failure, and allows a retry before any failure. */
  lemma BinaryClassifierFollowsLastError(rule: BinaryRule, errs: seq<Failure>, now: int, later: int)
    ensures var p := BinaryClassifier(rule);
      var r := RegisterAll(p, Open(p, now), errs, now);
      CanRetry(p, r, later).answer == (|errs| == 0 || BinaryClassify(rule, Some(errs[|errs| - 1]))) &&
      r.count == |errs|
  {
  }

  // ---------------------------------------------------------------------
  // SimpleRetryPolicy
  // ---------------------------------------------------------------------

  /** `canRetry` of the simple policy: no error yet, or the error is
    * retryable and fewer than `getMaxAttempts()` were counted; NO_RECOVERY
    * is set exactly when that is false for an error the recoverable
    * classifier rejects, and removed otherwise. */
  lemma SimpleCanRetryRule(p: Policy, s: CtxState, now: int)
    requires p.Simple? && Fits(p, s)
    ensures var d := CanRetry(p, s, now);
      (d.answer <==> s.last.None? || (BinaryClassify(p.retryable, s.last) && s.count < MaxAttemptsOf(p))) &&
      (IsTrue(d.state.attrs, NO_RECOVERY) <==> !d.answer && s.last.Some? && !BinaryClassify(p.recoverable, s.last)) &&
      (NO_RECOVERY in d.state.attrs ==> IsTrue(d.state.attrs, NO_RECOVERY))
  {
  }

  /** A supplier, when set, decides the limit instead of the fixed value. */
  lemma SupplierOverridesMaxAttempts(p: Policy, v: int)
    requires p.Simple?
    ensures MaxAttemptsOf(p.(maxAttemptsSupplier := Some(v))) == v
    ensures MaxAttemptsOf(p.(maxAttemptsSupplier := None)) == p.maxAttempts
  {
  }

  /** With an empty map and default true, every error is classified true,
    * whether or not causes are walked. */
  lemma {:induction false} EmptyRuleAnswersDefault(c: Option<Failure>)
    ensures CauseWalk(map[], true, c).value
    decreases c
  {
    var none: map<TypeId, bool> := map[];
    if c.Some? {
      assert SuperclassMatch(none, c.value.lineage, 1).None?;
      assert InterfaceMatch(none, c.value.lineage, 0).None?;
      EmptyRuleAnswersDefault(c.value.cause);
    }
  }

  /** The default simple policy finds every error recoverable, so it never
    * sets NO_RECOVERY. */
  lemma DefaultSimpleRecoversEverything(s: CtxState, now: int)
    requires Fits(DefaultSimple(), s)
    ensures NO_RECOVERY !in CanRetry(DefaultSimple(), s, now).state.attrs
  {
    if s.last.Some? {
      EmptyRuleAnswersDefault(s.last);
    }
  }

  /** The default retryable rule retries every `Exception`. */
  lemma DefaultRuleRetriesExceptions(f: Failure)
    requires f.InstanceOf(EXCEPTION)
    ensures BinaryClassify(DefaultRule(), Some(f))
  {
    var m := DefaultRule().classified;
    if f.ClassOf() != EXCEPTION {
      var k :| 0 <= k < |f.lineage| && f.lineage[k].name == EXCEPTION;
      assert k >= 1;
      assert SuperclassMatch(m, f.lineage, 1).Some?;
    }
  }

  /** ... and nothing that has no `Exception` in its class hierarchy. */
  lemma DefaultRuleRefusesOthers(f: Failure)
    requires ClassifierBuilder.Unlisted(f, [EXCEPTION])
    ensures !BinaryClassify(DefaultRule(), Some(f))
  {
    var m := DefaultRule().classified;
    assert SuperclassMatch(m, f.lineage, 1).None?;
    assert InterfaceMatch(m, f.lineage, 0).None?;
  }

  /** No error on the cause chain from `c` has a listed class. */
  predicate ChainUnlisted(c: Option<Failure>, classes: seq<TypeId>)
    decreases c
  {
    c.Some? ==> ClassifierBuilder.Unlisted(c.value, classes) && ChainUnlisted(c.value.cause, classes)
  }

  lemma {:induction false} UnlistedChainIsRecoverable(classes: seq<TypeId>, m: map<TypeId, bool>, c: Option<Failure>)
    requires forall t :: t in m <==> t in classes
    ensures ChainUnlisted(c, classes) ==> CauseWalk(m, true, c).value
    decreases c
  {
    if c.Some? && ChainUnlisted(c, classes) {
      assert SuperclassMatch(m, c.value.lineage, 1).None?;
      assert InterfaceMatch(m, c.value.lineage, 0).None?;
      UnlistedChainIsRecoverable(classes, m, c.value.cause);
    }
  }

  /** After `setNotRecoverable(classes)`: an error of a listed class is not
    * recoverable, and an error with nothing listed anywhere on its cause
    * chain is. */
  lemma NotRecoverableIsExactlyListed(p: Policy, classes: seq<TypeId>, f: Failure)
    requires p.Simple?
    ensures f.ClassOf() in classes ==> !BinaryClassify(SetNotRecoverable(p, classes).recoverable, Some(f))
    ensures ChainUnlisted(Some(f), classes) ==> BinaryClassify(SetNotRecoverable(p, classes).recoverable, Some(f))
  {
    var rule := SetNotRecoverable(p, classes).recoverable;
    UnlistedChainIsRecoverable(classes, rule.classified, Some(f));
  }

  // ---------------------------------------------------------------------
  // CompositeRetryPolicy
  // ---------------------------------------------------------------------

  lemma {:induction false} PessimisticAsksEveryChild(ps: seq<Policy>, cs: seq<CtxState>, i: nat, now: int)
    requires i <= |ps| == |cs|
    requires forall j :: 0 <= j < |ps| ==> WellFormed(ps[j]) && Fits(ps[j], cs[j])
    ensures var v := CompositeFrom(ps, false, cs, i, now);
      (v.answer <==> forall j :: i <= j < |ps| ==> CanRetry(ps[j], cs[j], now).answer) &&
      forall j :: i <= j < |ps| ==> v.states[j] == CanRetry(ps[j], cs[j], now).state
    decreases |ps| - i
  {
    if i < |ps| {
      var d := CanRetry(ps[i], cs[i], now);
      var next := cs[i := d.state];
      PessimisticAsksEveryChild(ps, next, i + 1, now);
      assert forall j :: i < j < |ps| ==> next[j] == cs[j];
    }
  }

  lemma {:induction false} OptimisticStopsAtFirstYes(ps: seq<Policy>, cs: seq<CtxState>, i: nat, now: int)
    requires i <= |ps| == |cs|
    requires forall j :: 0 <= j < |ps| ==> WellFormed(ps[j]) && Fits(ps[j], cs[j])
    ensures var v := CompositeFrom(ps, true, cs, i, now);
      (v.answer <==> exists j :: i <= j < |ps| && CanRetry(ps[j], cs[j], now).answer) &&
      forall j :: i <= j < |ps| ==>
        v.states[j] == (if forall k :: i <= k < j ==> !CanRetry(ps[k], cs[k], now).answer
                        then CanRetry(ps[j], cs[j], now).state else cs[j])
    decreases |ps| - i
  {
    if i < |ps| {
      var d := CanRetry(ps[i], cs[i], now);
      var next := cs[i := d.state];
      if !d.answer {
        OptimisticStopsAtFirstYes(ps, next, i + 1, now);
        assert forall j :: i < j < |ps| ==> next[j] == cs[j];
      }
    }
  }

  /** Pessimistic mode (the default): a retry is allowed exactly when every
    * child allows one, and every child is asked. */
  lemma CompositePessimistic(ps: seq<Policy>, s: CtxState, now: int)
    requires WellFormed(Composite(ps, false)) && Fits(Composite(ps, false), s)
    ensures var d := CanRetry(Composite(ps, false), s, now);
      (d.answer <==> forall j :: 0 <= j < |ps| ==> CanRetry(ps[j], s.ext.children[j], now).answer) &&
      forall j :: 0 <= j < |ps| ==> d.state.ext.children[j] == CanRetry(ps[j], s.ext.children[j], now).state
  {
    PessimisticAsksEveryChild(ps, s.ext.children, 0, now);
  }

  /** Optimistic mode: a retry is allowed exactly when some child allows
    * one; children after the first that does are not asked. */
  lemma CompositeOptimistic(ps: seq<Policy>, s: CtxState, now: int)
    requires WellFormed(Composite(ps, true)) && Fits(Composite(ps, true), s)
    ensures var d := CanRetry(Composite(ps, true), s, now);
      var cs := s.ext.children;
      (d.answer <==> exists j :: 0 <= j < |ps| && CanRetry(ps[j], cs[j], now).answer) &&
      forall j :: 0 <= j < |ps| ==>
        d.state.ext.children[j] == (if forall k :: 0 <= k < j ==> !CanRetry(ps[k], cs[k], now).answer
                                    then CanRetry(ps[j], cs[j], now).state else cs[j])
  {
    OptimisticStopsAtFirstYes(ps, s.ext.children, 0, now);
  }

  /** With no children, pessimistic allows and optimistic refuses. */
  lemma EmptyComposite(optimistic: bool, now: int, later: int)
    ensures CanRetry(Composite([], optimistic), Open(Composite([], optimistic), now), later).answer == !optimistic
  {
  }

  /** `open` opens every child in order; `registerThrowable` registers the
    * error with every child and counts it once on the composite. */
  lemma CompositeFansOut(ps: seq<Policy>, optimistic: bool, s: CtxState, f: Failure, now: int)
    requires WellFormed(Composite(ps, optimistic)) && Fits(Composite(ps, optimistic), s)
    ensures var o := Open(Composite(ps, optimistic), now);
      |o.ext.children| == |ps| && forall j :: 0 <= j < |ps| ==> o.ext.children[j] == Open(ps[j], now)
    ensures var r := Register(Composite(ps, optimistic), s, Some(f), now);
      r.count == s.count + 1 && r.last == Some(f) &&
      forall j :: 0 <= j < |ps| ==> r.ext.children[j] == Register(ps[j], s.ext.children[j], Some(f), now)
  {
  }

  /** `getMaxAttempts` of a composite: the least limit its children
    * declare, or -1 when none declares one. */
  lemma CompositeMaxAttempts(ps: seq<Policy>, optimistic: bool)
    ensures var r := MaxAttemptsOf(Composite(ps, optimistic));
      (r == NO_MAXIMUM_ATTEMPTS_SET <==> forall j :: 0 <= j < |ps| ==> MaxAttemptsOf(ps[j]) == NO_MAXIMUM_ATTEMPTS_SET) &&
      (r != NO_MAXIMUM_ATTEMPTS_SET ==> exists j :: 0 <= j < |ps| && MaxAttemptsOf(ps[j]) == r) &&
      forall j :: 0 <= j < |ps| && MaxAttemptsOf(ps[j]) != NO_MAXIMUM_ATTEMPTS_SET ==> r <= MaxAttemptsOf(ps[j])
  {
  }

  // ---------------------------------------------------------------------
  // ExceptionClassifierRetryPolicy
  // ---------------------------------------------------------------------

  lemma ClassifierAllowsBeforeFailure(sel: PolicySelector, ps: seq<Policy>, now: int, later: int)
    requires WellFormed(ExceptionClassifier(sel, ps))
    ensures CanRetry(ExceptionClassifier(sel, ps), Open(ExceptionClassifier(sel, ps), now), later).answer
  {
  }

  /** The default classifier selects a never-retry policy for every error,
    * so one failure stops retries. */
  lemma DefaultClassifierStopsAfterOneFailure(t: Option<Failure>, now: int, later: int)
    ensures var p := DefaultExceptionClassifier();
      !CanRetry(p, Register(p, Open(p, now), t, now), later).answer
  {
  }

  /** `registerThrowable` selects a policy by classifying the error, opens
    * its child context on first selection and reuses it afterwards, leaves
    * the other children alone, and counts the error on the outer context. */
  lemma ClassifierOpensLazily(sel: PolicySelector, ps: seq<Policy>, s: CtxState, t: Option<Failure>, now: int)
    requires WellFormed(ExceptionClassifier(sel, ps)) && Fits(ExceptionClassifier(sel, ps), s)
    ensures var r := Register(ExceptionClassifier(sel, ps), s, t, now);
      var k := Select(sel, |ps|, t);
      r.ext.selected == Some(k) &&
      r.ext.contexts.Keys == s.ext.contexts.Keys + {k} &&
      (forall j :: j in s.ext.contexts && j != k ==> r.ext.contexts[j] == s.ext.contexts[j]) &&
      r.ext.contexts[k] == Register(ps[k], if k in s.ext.contexts then s.ext.contexts[k] else Open(ps[k], now), t, now) &&
      r.count == (if t.Some? then s.count + 1 else s.count)
  {
  }

  /** After a failure, `canRetry` is the selected policy's answer on its own
    * child context. */
  lemma ClassifierDelegatesToSelected(sel: PolicySelector, ps: seq<Policy>, s: CtxState, now: int)
    requires WellFormed(ExceptionClassifier(sel, ps)) && Fits(ExceptionClassifier(sel, ps), s)
    requires s.ext.selected.Some?
    ensures var k := s.ext.selected.value;
      var d := CanRetry(ExceptionClassifier(sel, ps), s, now);
      d.answer == CanRetry(ps[k], s.ext.contexts[k], now).answer &&
      d.state.ext.contexts == s.ext.contexts[k := CanRetry(ps[k], s.ext.contexts[k], now).state]
  {
  }

  /** No class or interface of the error's lineage is in `keys`. */
  predicate Unmapped(f: Failure, keys: set<TypeId>) {
    (forall k :: 0 <= k < |f.lineage| ==> f.lineage[k].name !in keys) &&
    (forall k, j :: 0 <= k < |f.lineage| && 0 <= j < |f.lineage[k].interfaces| ==> f.lineage[k].interfaces[j] !in keys)
  }

  /** `setPolicyMap`: an error whose class is mapped selects its policy; an
    * error with nothing of its hierarchy mapped selects never-retry. */
  lemma PolicyMapSelects(typeMap: map<TypeId, nat>, policies: seq<Policy>, f: Failure)
    requires forall t :: t in typeMap ==> typeMap[t] < |policies|
    requires forall i :: 0 <= i < |policies| ==> WellFormed(policies[i])
    ensures var p := WithPolicyMap(typeMap, policies);
      f.ClassOf() in typeMap ==> Select(p.selector, |p.policies|, Some(f)) == typeMap[f.ClassOf()]
    ensures var p := WithPolicyMap(typeMap, policies);
      Unmapped(f, typeMap.Keys) ==> p.policies[Select(p.selector, |p.policies|, Some(f))].Never?
  {
    var p := WithPolicyMap(typeMap, policies);
    if Unmapped(f, typeMap.Keys) {
      assert SuperclassMatch(typeMap, f.lineage, 1).None?;
      assert InterfaceMatch(typeMap, f.lineage, 0).None?;
    }
  }

  /** The classifier inside an exception-classifier policy memoises each
    * lookup in place, and the model selects from the unmemoised map. For
    * maps keyed by exception classes this drops nothing: after selecting
    * for `t`, the memoised classifier selects for `u` what the original
    * selector does. */
  lemma SelectIgnoresMemo(m: map<TypeId, nat>, d: nat, n: nat, t: Failure, u: Failure)
    requires SelectorFits(BySubclass(m, d), n)
    requires ClassifyProps.NoInterfaceKeys(m, t) && ClassifyProps.NoInterfaceKeys(m, u)
    requires ClassifyProps.AgreesWith(u, t)
    ensures var memo := Classified(m, d, Some(t)).memo;
            SelectorFits(BySubclass(memo, d), n) &&
            Select(BySubclass(memo, d), n, Some(u)) == Select(BySubclass(m, d), n, Some(u))
  {
    ClassifyProps.ClassifiedIsMappedOrDefault(m, d, Some(t));
    ClassifyProps.MemoKeepsClassAnswers(m, d, t, u);
  }

  // ---------------------------------------------------------------------
  // CircuitBreakerRetryPolicy
  // ---------------------------------------------------------------------

  /** While the circuit is open `canRetry` refuses and counts one more
    * short circuit. */
  lemma CircuitOpenRefuses(p: Policy, s: CtxState, now: int)
    requires p.CircuitBreaker? && WellFormed(p) && Fits(p, s)
    requires IsOpen(p, s, now).answer
    ensures var o := IsOpen(p, s, now).state;
      var d := CanRetry(p, s, now);
      !d.answer && d.state.ext.shortCount == o.ext.shortCount + 1 &&
      d.state.attrs[CIRCUIT_SHORT_COUNT] == Number(o.ext.shortCount + 1) &&
      d.state.ext.inner == o.ext.inner
  {
  }

  /** While it is closed the short-circuit count is reset and the delegate
    * answers on its own context. */
  lemma CircuitClosedDelegates(p: Policy, s: CtxState, now: int)
    requires p.CircuitBreaker? && WellFormed(p) && Fits(p, s)
    requires !IsOpen(p, s, now).answer
    ensures var o := IsOpen(p, s, now).state;
      var d := CanRetry(p, s, now);
      d.answer == CanRetry(p.delegate, o.ext.inner, now).answer &&
      d.state.ext.inner == CanRetry(p.delegate, o.ext.inner, now).state &&
      d.state.ext.shortCount == 0 && d.state.attrs[CIRCUIT_SHORT_COUNT] == Number(0)
  {
  }

  /** Closed: the delegate allows a retry. Past the open window the
    * delegate context is replaced by a fresh one and the window restarts. */
  lemma CircuitClosedWhileDelegateAllows(p: Policy, s: CtxState, now: int)
    requires p.CircuitBreaker? && WellFormed(p) && Fits(p, s)
    requires CanRetry(p.delegate, s.ext.inner, now).answer
    ensures var o := IsOpen(p, s, now);
      !o.answer &&
      (now - s.ext.start > s.ext.openWindow ==>
         o.state.ext.inner == Open(p.delegate, now) && o.state.ext.start == now && o.state.ext.shortCount == 0) &&
      (now - s.ext.start <= s.ext.openWindow ==>
         o.state.ext.inner == CanRetry(p.delegate, s.ext.inner, now).state && o.state.ext.start == s.ext.start)
  {
  }

  /** Half-open: the delegate refuses but the reset timeout has passed; a
    * fresh delegate context (count 0) is opened, the window restarts and
    * the delegate is asked again on it. */
  lemma CircuitHalfOpens(p: Policy, s: CtxState, now: int)
    requires p.CircuitBreaker? && WellFormed(p) && Fits(p, s)
    requires !CanRetry(p.delegate, s.ext.inner, now).answer
    requires now - s.ext.start > s.ext.timeout
    ensures var o := IsOpen(p, s, now);
      var again := CanRetry(p.delegate, Open(p.delegate, now), now);
      o.answer == !again.answer && o.state.ext.inner == again.state &&
      o.state.ext.inner.count == 0 && o.state.ext.start == now
  {
  }

  /** Open: the delegate refuses within the reset timeout. The window
    * restarts only when the failure came within the open window of a
    * circuit not yet marked open. */
  lemma CircuitOpensOnRecentFailure(p: Policy, s: CtxState, now: int)
    requires p.CircuitBreaker? && WellFormed(p) && Fits(p, s)
    requires !CanRetry(p.delegate, s.ext.inner, now).answer
    requires now - s.ext.start <= s.ext.timeout
    ensures var o := IsOpen(p, s, now);
      o.answer &&
      o.state.ext.start == (if now - s.ext.start < s.ext.openWindow && !IsTrue(s.attrs, CIRCUIT_OPEN)
                            then now else s.ext.start)
  {
  }

  /** A circuit context is global, starts at `now` with a fresh delegate
    * context, and takes its timeouts from the suppliers when they are set
    * (read once, here) or else from the fixed values. */
  lemma CircuitOpens(p: Policy, now: int)
    requires p.CircuitBreaker? && WellFormed(p)
    ensures var s := Open(p, now);
      IsTrue(s.attrs, GLOBAL_STATE) && s.ext.inner == Open(p.delegate, now) &&
      s.ext.start == now && s.ext.shortCount == 0 &&
      s.ext.timeout == (if p.resetTimeoutSupplier.Some? then p.resetTimeoutSupplier.value else p.resetTimeout) &&
      s.ext.openWindow == (if p.openTimeoutSupplier.Some? then p.openTimeoutSupplier.value else p.openTimeout)
  {
  }

  lemma CircuitDefaults(d: Policy, now: int)
    requires WellFormed(d)
    ensures Open(NewCircuitBreaker(d), now).ext.timeout == 20000
    ensures Open(NewCircuitBreaker(d), now).ext.openWindow == 5000
  {
  }

  /** `registerThrowable` records the error on the circuit context and on
    * the delegate's; the retry count reported is the delegate's. */
  lemma CircuitRegistersOnBoth(p: Policy, s: CtxState, f: Failure, now: int)
    requires p.CircuitBreaker? && WellFormed(p) && Fits(p, s)
    ensures var r := Register(p, s, Some(f), now);
      r.count == s.count + 1 && r.last == Some(f) &&
      r.ext.inner == Register(p.delegate, s.ext.inner, Some(f), now) &&
      RetryCount(r) == RetryCount(r.ext.inner)
  {
  }
}
