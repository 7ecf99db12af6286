/** What `RetryTemplate.doExecute` promises, proved about `Execute` and its
  * stages: the listeners' veto, the number of calls under a count limit,
  * when the backoff runs, the stateful rethrow and the global break, the
  * rules of `open`, `registerContext`, `handleRetryExhausted` and `close`,
  * the order of the listeners and `wrapIfNecessary`. */
module TemplateProps {
  import opened Types
  import opened Policies
  import opened BackOffs
  import opened Contexts
  import opened Execution

  // ---------------------------------------------------------------------
  // Errors and listeners
  // ---------------------------------------------------------------------

  /** `wrapIfNecessary`: errors and exceptions come back unchanged, any
    * other throwable (or none) becomes the cause of a `RetryException`,
    * and wrapping twice is wrapping once. */
  lemma WrapRules(t: Option<Failure>)
    ensures t.Some? && (t.value.InstanceOf(ERROR) || t.value.InstanceOf(EXCEPTION)) ==> Wrap(t) == t.value
    ensures !(t.Some? && (t.value.InstanceOf(ERROR) || t.value.InstanceOf(EXCEPTION))) ==>
              Wrap(t).ClassOf() == RETRY_EXCEPTION && Wrap(t).cause == t
    ensures Wrap(t).InstanceOf(ERROR) || Wrap(t).InstanceOf(EXCEPTION)
    ensures Wrap(Some(Wrap(t))) == Wrap(t)
  {
  }

  /** The listener registered last is told first: appending a listener
    * puts its notice in front of all the others. */
  lemma BackwardsTellsNewestFirst(ls: seq<RetryListener>, l: RetryListener, n: Notice)
    ensures Backwards(ls + [l], n) == [Event(l.name, n)] + Backwards(ls, n)
  {
    var a := Backwards(ls + [l], n);
    var b := [Event(l.name, n)] + Backwards(ls, n);
    assert |a| == |b|;
    forall i | 0 <= i < |a|
      ensures a[i] == b[i]
    {
      if i > 0 {
        assert b[i] == Backwards(ls, n)[i - 1];
      }
    }
  }

  /** Every listener is told, each once, in the reverse of the order in
    * which they were registered. */
  lemma BackwardsIsReversed(ls: seq<RetryListener>, n: Notice, i: nat)
    requires i < |ls|
    ensures |Backwards(ls, n)| == |ls|
    ensures Backwards(ls, n)[|ls| - 1 - i] == Event(ls[i].name, n)
  {
  }

  /** A listener that refuses `open` stops the run before the callback:
    * `open` reached the listeners up to the first refusal, no call was
    * made, nothing slept, and the run raises `TerminatedRetryException`. */
  lemma VetoTerminates(s: Setup, w: World, k: nat)
    requires Consistent(s, w) && !OpenFails(s, w)
    requires k < |s.listeners| && !s.listeners[k].approves
    requires forall j :: 0 <= j < k ==> s.listeners[j].approves
    ensures var e := Execute(s, w);
            && e.verdict == Raised(Terminated(None))
            && e.verdict.error.ClassOf() == TERMINATED_RETRY_EXCEPTION
            && e.run.made == 0 && !e.exhausted
            && e.run.slept == w.slept && e.run.now == w.now && e.run.draws == w.draws
            && e.run.events == OpenEvents(s.listeners) + Backwards(s.listeners, OnClose(None))
            && |OpenEvents(s.listeners)| == k + 1
  {
    OpenCallsStopAtRefusal(s.listeners, k);
  }

  // ---------------------------------------------------------------------
  // A stateless run under a count limit
  // ---------------------------------------------------------------------

  /** The backoff never interrupts a sleep. */
  predicate Uninterrupted(p: Pacing) {
    p.NoPause? || p.sleeper.interrupts == {}
  }

  /** A stateless run under `MaxAttemptsRetryPolicy`. */
  predicate CountLimited(s: Setup) {
    s.policy.MaxAttempts? && s.state.None? && Uninterrupted(s.pacing)
  }

  /** The run has registered one failure per call made. */
  predicate Counting(r: Run) {
    r.ctx.ext.Support? && r.ctx.count == r.made && !r.ctx.exhaustedOnly && NO_RECOVERY !in r.ctx.attrs
  }

  /** The calls `from` up to `to` all raise. */
  predicate FailsBetween(calls: seq<Call>, from: nat, to: nat)
    requires to <= |calls|
  {
    forall i :: from <= i < to ==> calls[i].outcome.Throws?
  }

  /** A failing call below the limit leads to one more turn, having
    * registered its error. */
  lemma FailingTurn(s: Setup, r: Run)
    requires CountLimited(s) && Ready(s, r) && Counting(r)
    requires r.made < |s.calls| && r.made < s.policy.maxAttempts
    requires s.calls[r.made].outcome.Throws?
    ensures Iteration(s, r).Again?
    ensures Counting(Iteration(s, r).next)
    ensures Iteration(s, r).next.ctx.last == Some(s.calls[r.made].outcome.error)
  {
    var g := Gate(s.policy, r.ctx, r.now);
    assert g.answer && g.state == r.ctx;
    var call := s.calls[r.made];
    var r1 := r.(made := r.made + 1, now := r.now + call.elapsed, last := None);
    ReadyAfterCall(s, r, call.elapsed);
    CalledThrows(s, r, call.elapsed, call.outcome.error);
    var rec := Record(s, r1, call.outcome.error);
    assert rec.error.None?;
    var g1 := Gate(s.policy, rec.run.ctx, rec.run.now);
    assert g1.state == rec.run.ctx;
    assert !SleepInterrupted(s, rec.run.(ctx := g1.state));
  }

  /** A returning call below the limit ends the run with its value. */
  lemma ReturningTurn(s: Setup, r: Run)
    requires CountLimited(s) && Ready(s, r) && Counting(r)
    requires r.made < |s.calls| && r.made < s.policy.maxAttempts
    requires s.calls[r.made].outcome.Returns?
    ensures Iteration(s, r).Done?
    ensures Iteration(s, r).ending.verdict == Returned(s.calls[r.made].outcome.value)
    ensures Iteration(s, r).ending.run.made == r.made + 1 && !Iteration(s, r).ending.exhausted
  {
  }

  /** `n` failures and then a success, with `n` below the limit: the run
    * returns that value after exactly `n + 1` calls. */
  lemma {:induction false} LoopSucceedsAfterFailures(s: Setup, r: Run, n: nat)
    requires CountLimited(s) && Ready(s, r) && Counting(r)
    requires r.made <= n < |s.calls| && n < s.policy.maxAttempts
    requires FailsBetween(s.calls, r.made, n) && s.calls[n].outcome.Returns?
    ensures Loop(s, r).verdict == Returned(s.calls[n].outcome.value)
    ensures Loop(s, r).run.made == n + 1 && !Loop(s, r).exhausted
    decreases n - r.made
  {
    if r.made == n {
      ReturningTurn(s, r);
    } else {
      FailingTurn(s, r);
      LoopSucceedsAfterFailures(s, Iteration(s, r).next, n);
    }
  }

  /** The verdict of `handleRetryExhausted` for a stateless run whose last
    * error is `e`, with no `NO_RECOVERY` mark. */
  function StatelessExhaustion(recovery: Option<Recovery>, e: Failure): Verdict {
    if recovery.None? then Raised(Wrap(Some(e)))
    else match recovery.value
      case Recovers(v) => Returned(v)
      case RecoveryThrows(f) =>
        Raised(Wrap(Some(if f.InstanceOf(UNDECLARED_THROWABLE_EXCEPTION) then Wrap(f.cause) else f)))
  }

  /** As many failures as the limit allows: the run makes exactly that
    * many calls and is exhausted, raising the last error or recovering. */
  lemma {:induction false} LoopExhaustsAfterFailures(s: Setup, r: Run)
    requires CountLimited(s) && Ready(s, r) && Counting(r)
    requires 1 <= s.policy.maxAttempts <= |s.calls| && r.made <= s.policy.maxAttempts
    requires FailsBetween(s.calls, 0, s.policy.maxAttempts)
    requires r.made > 0 ==> r.ctx.last == Some(s.calls[r.made - 1].outcome.error)
    ensures Loop(s, r).exhausted && Loop(s, r).run.made == s.policy.maxAttempts
    ensures Loop(s, r).verdict == StatelessExhaustion(s.recovery, s.calls[s.policy.maxAttempts - 1].outcome.error)
    ensures EXHAUSTED in Loop(s, r).run.ctx.attrs
    decreases |s.calls| - r.made
  {
    if r.made == s.policy.maxAttempts {
      assert Iteration(s, r) == Done(Exhaust(s, r));
    } else {
      FailingTurn(s, r);
      LoopExhaustsAfterFailures(s, Iteration(s, r).next);
    }
  }

  /** The run a stateless `open` and the preparation before the loop give. */
  lemma StatelessStart(s: Setup, w: World)
    requires CountLimited(s) && AllApprove(s.listeners)
    ensures Consistent(s, w) && !OpenFails(s, w)
    ensures var r := Prepared(s, Start(s, w).(events := OpenEvents(s.listeners)));
            Ready(s, r) && Counting(r) && r.made == 0
            && Execute(s, w) == Finish(s, Loop(s, r))
  {
    var r := Start(s, w);
    assert r.ctx == Fresh(Support);
    assert NO_RECOVERY[8] != MAX_ATTEMPTS[8];
  }

  /** `N` failures then a success under a limit of `M > N` attempts: the
    * template returns the value after exactly `N + 1` calls, and the
    * context is closed. */
  lemma StatelessSucceedsAfterFailures(s: Setup, w: World, n: nat)
    requires CountLimited(s) && AllApprove(s.listeners)
    requires n < |s.calls| && n < s.policy.maxAttempts
    requires FailsBetween(s.calls, 0, n) && s.calls[n].outcome.Returns?
    ensures Consistent(s, w)
    ensures Execute(s, w).verdict == Returned(s.calls[n].outcome.value)
    ensures Execute(s, w).run.made == n + 1
    ensures IsTrue(Execute(s, w).run.ctx.attrs, CLOSED)
  {
    StatelessStart(s, w);
    LoopSucceedsAfterFailures(s, Prepared(s, Start(s, w).(events := OpenEvents(s.listeners))), n);
  }

  /** `M` failures under a limit of `M` attempts: exactly `M` calls, then
    * exhaustion, which raises the last error or returns what the recovery
    * callback gives; the context is closed. */
  lemma StatelessExhaustsAfterFailures(s: Setup, w: World)
    requires CountLimited(s) && AllApprove(s.listeners)
    requires 1 <= s.policy.maxAttempts <= |s.calls|
    requires FailsBetween(s.calls, 0, s.policy.maxAttempts)
    ensures Consistent(s, w)
    ensures Execute(s, w).exhausted && Execute(s, w).run.made == s.policy.maxAttempts
    ensures Execute(s, w).verdict == StatelessExhaustion(s.recovery, s.calls[s.policy.maxAttempts - 1].outcome.error)
    ensures s.recovery.None? ==> Execute(s, w).verdict == Raised(Wrap(Some(s.calls[s.policy.maxAttempts - 1].outcome.error)))
    ensures IsTrue(Execute(s, w).run.ctx.attrs, CLOSED)
  {
    StatelessStart(s, w);
    LoopExhaustsAfterFailures(s, Prepared(s, Start(s, w).(events := OpenEvents(s.listeners))));
  }

  // ---------------------------------------------------------------------
  // The backoff
  // ---------------------------------------------------------------------

  /** The run a turn leaves. */
  function TurnRun(t: Turn): Run {
    if t.Done? then t.ending.run else t.next
  }

  /** After a failure, nothing sleeps unless the policy still permits a
    * retry; when it does, the backoff sleeps once; an interrupted sleep
    * ends the run with `BackOffInterruptedException` and no recovery. */
  lemma BackOffOnlyWhenPermitted(s: Setup, r: Run, e: Failure)
    requires Ready(s, r)
    ensures var g := Gate(s.policy, r.ctx, r.now);
            var t := BackOffThenRethrow(s, r, e);
            && (!g.answer ==> TurnRun(t).slept == r.slept && TurnRun(t).now == r.now &&
                              TurnRun(t).draws == r.draws && TurnRun(t).backOff == r.backOff)
            && (g.answer && !s.pacing.NoPause? ==> |TurnRun(t).slept| == |r.slept| + 1)
            && (g.answer && SleepInterrupted(s, r.(ctx := g.state)) ==>
                  t.Done? && t.ending.verdict == Raised(BackOffInterrupted()) && !t.ending.exhausted)
  {
  }

  /** The backoff context is started once: a context that already holds
    * one keeps it, and a cached context brings its own back. */
  lemma BackOffContextKept(s: Setup, w: World)
    requires Consistent(s, w) && Cached(s, w) && !s.state.value.forceRefresh
    requires w.hit.value.backOff.Some?
    ensures Prepared(s, Start(s, w)).backOff == w.hit.value.backOff
  {
  }

  // ---------------------------------------------------------------------
  // Stateful runs
  // ---------------------------------------------------------------------

  /** A stateful run under a count limit of at least one attempt, whose key
    * is not cached yet and whose cache has room. */
  predicate FirstStatefulCall(s: Setup, w: World) {
    && s.policy.MaxAttempts? && s.policy.maxAttempts >= 1 && Uninterrupted(s.pacing)
    && s.state.Some? && s.state.value.key.Some? && !Cached(s, w) && |w.keys| < s.capacity
    && AllApprove(s.listeners) && |s.calls| > 0 && s.calls[0].outcome.Throws?
  }

  /** With a state whose `rollbackFor` accepts the first error, that error
    * is rethrown after one call; the context is neither closed nor
    * evicted, so the next call with the key finds it in the cache. */
  lemma RollbackRethrowsAfterOneCall(s: Setup, w: World)
    requires FirstStatefulCall(s, w)
    requires RollbackFor(s.state.value, s.calls[0].outcome.error)
    ensures Consistent(s, w)
    ensures var e := Execute(s, w);
            && e.verdict == Raised(Wrap(Some(s.calls[0].outcome.error)))
            && e.run.made == 1 && !e.exhausted
            && s.state.value.key.value in e.run.keys
            && CLOSED !in e.run.ctx.attrs && e.run.ctx.count == 1
  {
    var r0 := Start(s, w);
    assert r0.ctx.attrs == map[STATE_KEY := Key(s.state.value.key.value)];
    assert GLOBAL_STATE[0] != STATE_KEY[0];
    var r := Prepared(s, r0.(events := OpenEvents(s.listeners)));
    assert CLOSED[8] != STATE_KEY[8] && CLOSED[8] != MAX_ATTEMPTS[8];
    assert CLOSED !in r.ctx.attrs;
    RollbackFirstTurn(s, r);
  }

  /** The loop of such a run: the first call's error is rethrown after
    * the context is registered in the cache. */
  lemma RollbackFirstTurn(s: Setup, r: Run)
    requires Ready(s, r) && r.made == 0 && s.policy.MaxAttempts? && s.policy.maxAttempts >= 1
    requires Uninterrupted(s.pacing) && s.state.Some? && s.state.value.key.Some?
    requires s.state.value.key.value !in r.keys && |r.keys| < s.capacity
    requires |s.calls| > 0 && s.calls[0].outcome.Throws? && RollbackFor(s.state.value, s.calls[0].outcome.error)
    requires r.ctx.count == 0 && !r.ctx.exhaustedOnly && CLOSED !in r.ctx.attrs
    ensures var end := Loop(s, r);
            && end.verdict == Raised(Wrap(Some(s.calls[0].outcome.error)))
            && end.run.made == 1 && !end.exhausted && end.run.last.Some?
            && s.state.value.key.value in end.run.keys
            && CLOSED !in end.run.ctx.attrs && end.run.ctx.count == 1
  {
    var e := s.calls[0].outcome.error;
    var call := s.calls[0];
    var r1 := r.(made := 1, now := r.now + call.elapsed, last := None);
    var rec := Record(s, r1, e);
    assert rec.error.None?;
    var g1 := Gate(s.policy, rec.run.ctx, rec.run.now);
    assert !SleepInterrupted(s, rec.run.(ctx := g1.state));
    assert Loop(s, r) == Iteration(s, r).ending;
  }

  /** `canRetry` never drops the mark of a global context. */
  lemma GateKeepsGlobal(p: Policy, ctx: CtxState, now: int)
    requires WellFormed(p) && Fits(p, ctx) && GLOBAL_STATE in ctx.attrs
    ensures GLOBAL_STATE in Gate(p, ctx, now).state.attrs
  {
    assert GLOBAL_STATE != NO_RECOVERY by { assert GLOBAL_STATE[0] != NO_RECOVERY[0]; }
    if p.CircuitBreaker? {
      var open := IsOpen(p, ctx, now);
      assert GLOBAL_STATE in open.state.attrs;
    }
  }

  /** A failing call on a global context ends a stateful run: it rethrows,
    * is interrupted, or is exhausted. */
  lemma GlobalFailureEndsRun(s: Setup, r: Run, e: Failure)
    requires Ready(s, r) && s.state.Some? && GLOBAL_STATE in r.ctx.attrs
    requires r.made < |s.calls| && s.calls[r.made].outcome == Throws(e)
    ensures Invoke(s, r).Done?
  {
    var elapsed := s.calls[r.made].elapsed;
    var r1 := r.(made := r.made + 1, now := r.now + elapsed, last := None);
    ReadyAfterCall(s, r, elapsed);
    CalledThrows(s, r, elapsed, e);
    var rec := Record(s, r1, e);
    if rec.error.None? {
      GateKeepsGlobal(s.policy, rec.run.ctx, rec.run.now);
    }
  }

  /** On a global context, a stateful run's call ends the run, whether it
    * returns or raises. */
  lemma GlobalCallEndsRun(s: Setup, r: Run)
    requires Ready(s, r) && s.state.Some? && GLOBAL_STATE in r.ctx.attrs
    ensures Invoke(s, r).Done?
  {
    if r.made < |s.calls| {
      match s.calls[r.made].outcome
      case Returns(v) =>
      case Throws(e) =>
        GlobalFailureEndsRun(s, r, e);
    }
  }

  /** A stateful run on a global context, such as a circuit breaker's,
    * never takes a second turn: whatever the first call does, the loop
    * ends with it. */
  lemma GlobalEndsAfterOneTurn(s: Setup, r: Run)
    requires Ready(s, r) && s.state.Some? && GLOBAL_STATE in r.ctx.attrs
    ensures Iteration(s, r).Done?
    ensures Loop(s, r) == Iteration(s, r).ending
  {
    var g := Gate(s.policy, r.ctx, r.now);
    GateKeepsGlobal(s.policy, r.ctx, r.now);
    if g.answer {
      GlobalCallEndsRun(s, r.(ctx := g.state));
    }
  }

  // ---------------------------------------------------------------------
  // open, registerContext, handleRetryExhausted, close
  // ---------------------------------------------------------------------

  /** `open`: a stateless run, a refreshing run or a key not cached gets
    * a fresh context; otherwise the cached one comes back, with its count
    * and last error, and without the CLOSED, EXHAUSTED and RECOVERED
    * marks. A fresh context carries STATE_KEY exactly when the run has a
    * non-null key. */
  lemma OpenRules(s: Setup, w: World)
    requires Consistent(s, w)
    ensures var o := OpenStage(s, w);
            && (o.reused <==> s.state.Some? && !s.state.value.forceRefresh && Cached(s, w))
            && (!o.reused ==> o.ctx.count == 0 && o.ctx.last.None? && o.backOff.None? &&
                              o.ctx.ext == Open(s.policy, w.now).ext)
            && (s.state.None? ==> o.ctx == Open(s.policy, w.now) && o.error.None? && o.keys == w.keys)
            && (!o.reused ==> (STATE_KEY in o.ctx.attrs <==> s.state.Some? && s.state.value.key.Some?))
            && (!o.reused && s.state.Some? && s.state.value.key.Some? ==>
                  o.ctx.attrs[STATE_KEY] == Key(s.state.value.key.value))
            && (o.reused ==> o.ctx.count == w.hit.value.ctx.count && o.ctx.last == w.hit.value.ctx.last &&
                             o.ctx.ext == w.hit.value.ctx.ext && o.backOff == w.hit.value.backOff &&
                             CLOSED !in o.ctx.attrs && EXHAUSTED !in o.ctx.attrs && RECOVERED !in o.ctx.attrs &&
                             o.ctx.attrs.Keys == w.hit.value.ctx.attrs.Keys - {CLOSED, EXHAUSTED, RECOVERED} &&
                             o.error.None? && o.keys == w.keys)
  {
  }

  /** `registerContext`: it fails exactly when a retried context's key is
    * no longer cached (an inconsistent state) or the cache is full;
    * otherwise a stateful run with a key leaves the key cached. */
  lemma RegisterContextRules(state: Option<RetryState>, ctx: CtxState, keys: set<int>, capacity: int)
    ensures var reg := RegisterContext(state, ctx, keys, capacity);
            && (state.None? || state.value.key.None? ==> reg.error.None? && reg.keys == keys)
            && (state.Some? && state.value.key.Some? ==>
                  var key := state.value.key.value;
                  && (reg.error.None? <==> (RetryCount(ctx) <= 1 || key in keys) && |keys| < capacity)
                  && (RetryCount(ctx) > 1 && key !in keys ==>
                        reg.error == Some(RetryFailure(RETRY_EXCEPTION, None)))
                  && (reg.error.Some? ==> reg.keys == keys)
                  && (reg.error.None? ==> reg.keys == keys + {key} && key in reg.keys))
  {
  }

  /** `handleRetryExhausted`: EXHAUSTED is set; a stateful key leaves the
    * cache unless the context is global; the recovery callback runs
    * exactly when there is one and NO_RECOVERY is not set, and a value it
    * returns is the run's and marks the context RECOVERED; without it a
    * stateful run raises the last error itself (`throwLastExceptionOnExhausted`
    * or NO_RECOVERY) or an `ExhaustedRetryException`, and a stateless
    * run the last error. */
  lemma ExhaustRules(s: Setup, r: Run)
    ensures var e := Exhaust(s, r);
            var recover := s.recovery.Some? && !IsTrue(r.ctx.attrs, NO_RECOVERY);
            && e.exhausted && IsTrue(e.run.ctx.attrs, EXHAUSTED)
            && e.run.ctx.count == r.ctx.count && e.run.ctx.last == r.ctx.last
            && e.run.made == r.made && e.run.slept == r.slept && e.run.events == r.events
            && (s.state.Some? && GLOBAL_STATE !in r.ctx.attrs ==> e.run.keys == Forget(r.keys, s.state.value.key))
            && (s.state.None? || GLOBAL_STATE in r.ctx.attrs ==> e.run.keys == r.keys)
            && (recover && s.recovery.value.Recovers? ==>
                  e.verdict == Returned(s.recovery.value.value) && IsTrue(e.run.ctx.attrs, RECOVERED))
            && (recover && s.recovery.value.RecoveryThrows? ==> e.verdict.Raised?)
            && (!recover && s.state.Some? && (s.throwLast || IsTrue(r.ctx.attrs, NO_RECOVERY)) ==>
                  e.verdict == Raised(if r.ctx.last.None? then NullPointer() else Wrap(r.ctx.last)))
            && (!recover && s.state.Some? && !s.throwLast && !IsTrue(r.ctx.attrs, NO_RECOVERY) ==>
                  e.verdict.Raised? && e.verdict.error.ClassOf() == EXHAUSTED_RETRY_EXCEPTION &&
                  e.verdict.error.cause == r.ctx.last)
            && (!recover && s.state.None? ==> e.verdict == Raised(Wrap(r.ctx.last)))
            && (!recover ==> e.verdict.Raised?)
  {
    assert EXHAUSTED != NO_RECOVERY by { assert EXHAUSTED[8] != NO_RECOVERY[8]; }
    assert RECOVERED != NO_RECOVERY by { assert RECOVERED[8] != NO_RECOVERY[8]; }
  }

  /** The finally block: the verdict stands; a stateless run is always
    * closed; a stateful run is closed, and its key evicted unless it is
    * global, only when it succeeded or was exhausted; otherwise its
    * context and the cache are left as they were. The listeners' `close`
    * comes last, newest listener first. */
  lemma FinishRules(s: Setup, e: Ending)
    requires !e.verdict.Unfinished?
    ensures var f := Finish(s, e);
            var succeeded := e.run.last.None? || e.exhausted;
            && f.verdict == e.verdict && f.exhausted == e.exhausted
            && f.run.made == e.run.made && f.run.slept == e.run.slept
            && f.run.events == e.run.events + Backwards(s.listeners, OnClose(e.run.last))
            && (s.state.None? ==> IsTrue(f.run.ctx.attrs, CLOSED) && f.run.keys == e.run.keys)
            && (s.state.Some? && succeeded ==> IsTrue(f.run.ctx.attrs, CLOSED))
            && (s.state.Some? && succeeded && GLOBAL_STATE !in e.run.ctx.attrs ==>
                  f.run.keys == Forget(e.run.keys, s.state.value.key))
            && (s.state.Some? && !succeeded ==> f.run.ctx == e.run.ctx && f.run.keys == e.run.keys)
  {
  }

  /** When the script runs out while the template would call again,
    * nothing is closed: the run is reported as it stands. */
  lemma FinishLeavesUnfinished(s: Setup, e: Ending)
    requires e.verdict.Unfinished?
    ensures Finish(s, e) == e
  {
  }
}
