/** `RetryTemplate`: the object whose `doExecute` opens or reuses a retry
  * context, calls the callback while the policy allows, backs off between
  * calls, and hands an exhausted run to the recovery callback. Each stage
  * is a method proved against the stage of the same name in module
  * `Execution`, and `DoExecute` against `Execute`. */
module Templates {
  import opened Types
  import opened Policies
  import opened BackOffs
  import opened Contexts
  import opened Caches
  import opened Sync
  import opened Execution

  /** The locals of `doExecute`: the calls made so far, the clock, the
    * listener events and `lastException`. */
  datatype Locals = Locals(made: nat, now: int, events: seq<Event>, last: Option<Failure>)

  function BackOffState(c: ExponentialBackOffContext?): Option<ExpState>
    reads c
  {
    if c == null then None else Some(c.State())
  }

  /** The sleeper's log (none without a backoff). */
  function SleptOf(p: Pacing): seq<int>
    reads Devices(p)
  {
    if p.NoPause? then [] else p.sleeper.slept
  }

  /** The draws taken from the random source (none without one). */
  function DrawsOf(p: Pacing): nat
    reads Devices(p)
  {
    if p.RandomPause? then p.random.calls else 0
  }

  /** The run that the objects and the locals hold. */
  function RunOf(context: RetryContext, p: Pacing, keys: set<int>, l: Locals): Run
    reads context, context.backOffContext, Devices(p)
  {
    Run(context.State(), BackOffState(context.backOffContext), l.made, l.now,
        SleptOf(p), DrawsOf(p), keys, l.events, l.last)
  }

  /** The backoff contexts of the cached contexts. */
  function BackOffObjects(cache: MapRetryContextCache): set<object>
    reads cache, cache.entries.Values
  {
    set c | c in cache.entries.Values && c.backOffContext != null :: c.backOffContext as object
  }

  /** The context cached under the run's key, as a value. */
  function Hit(cache: MapRetryContextCache, state: Option<RetryState>): Option<Held>
    reads cache, cache.entries.Values, BackOffObjects(cache)
  {
    if state.Some? && state.value.key.Some? && state.value.key.value in cache.entries then
      var c := cache.entries[state.value.key.value];
      assert c.backOffContext != null ==> c.backOffContext in BackOffObjects(cache);
      Some(Held(c.State(), BackOffState(c.backOffContext)))
    else None
  }

  class RetryTemplate {
    var retryPolicy: Policy
    var backOffPolicy: BackOffPolicy
    var listeners: seq<RetryListener>
    var retryContextCache: MapRetryContextCache
    var throwLastExceptionOnExhausted: bool

    /** No backoff, three attempts at any `Exception`, no listeners, a map
      * cache of the default capacity. */
    constructor ()
      ensures retryPolicy == DefaultSimple() && backOffPolicy == NoBackOff && listeners == []
      ensures fresh(retryContextCache) && retryContextCache.entries == map[]
      ensures retryContextCache.capacity == DEFAULT_CAPACITY && !throwLastExceptionOnExhausted
    {
      retryPolicy := DefaultSimple();
      backOffPolicy := NoBackOff;
      listeners := [];
      retryContextCache := new MapRetryContextCache();
      throwLastExceptionOnExhausted := false;
    }

    method SetRetryPolicy(p: Policy)
      modifies this
      ensures retryPolicy == p && backOffPolicy == old(backOffPolicy) && listeners == old(listeners)
      ensures retryContextCache == old(retryContextCache)
      ensures throwLastExceptionOnExhausted == old(throwLastExceptionOnExhausted)
    {
      retryPolicy := p;
    }

    method SetBackOffPolicy(b: BackOffPolicy)
      modifies this
      ensures backOffPolicy == b && retryPolicy == old(retryPolicy) && listeners == old(listeners)
      ensures retryContextCache == old(retryContextCache)
      ensures throwLastExceptionOnExhausted == old(throwLastExceptionOnExhausted)
    {
      backOffPolicy := b;
    }

    method SetRetryContextCache(cache: MapRetryContextCache)
      modifies this
      ensures retryContextCache == cache && retryPolicy == old(retryPolicy)
      ensures backOffPolicy == old(backOffPolicy) && listeners == old(listeners)
      ensures throwLastExceptionOnExhausted == old(throwLastExceptionOnExhausted)
    {
      retryContextCache := cache;
    }

    method SetThrowLastExceptionOnExhausted(b: bool)
      modifies this
      ensures throwLastExceptionOnExhausted == b && retryPolicy == old(retryPolicy)
      ensures backOffPolicy == old(backOffPolicy) && listeners == old(listeners)
      ensures retryContextCache == old(retryContextCache)
    {
      throwLastExceptionOnExhausted := b;
    }

    /** `setListeners` copies the array. */
    method SetListeners(ls: seq<RetryListener>)
      modifies this
      ensures listeners == ls && retryPolicy == old(retryPolicy) && backOffPolicy == old(backOffPolicy)
      ensures retryContextCache == old(retryContextCache)
      ensures throwLastExceptionOnExhausted == old(throwLastExceptionOnExhausted)
    {
      listeners := ls;
    }

    /** `registerListener(listener, index)`: appended at or past the end,
      * inserted before `index` otherwise; a negative index is refused
      * (`List.add` raises) and nothing changes. */
    method RegisterListenerAt(listener: RetryListener, index: int) returns (ok: bool)
      modifies this
      ensures ok <==> index >= 0
      ensures ok && index >= |old(listeners)| ==> listeners == old(listeners) + [listener]
      ensures ok && index < |old(listeners)| ==>
                listeners == old(listeners)[..index] + [listener] + old(listeners)[index..]
      ensures !ok ==> listeners == old(listeners)
      ensures retryPolicy == old(retryPolicy) && backOffPolicy == old(backOffPolicy)
      ensures retryContextCache == old(retryContextCache)
      ensures throwLastExceptionOnExhausted == old(throwLastExceptionOnExhausted)
    {
      if index >= |listeners| {
        listeners := listeners + [listener];
      } else if index < 0 {
        return false;
      } else {
        listeners := listeners[..index] + [listener] + listeners[index..];
      }
      ok := true;
    }

    /** `registerListener(listener)`: appended. */
    method RegisterListener(listener: RetryListener)
      modifies this
      ensures listeners == old(listeners) + [listener]
      ensures retryPolicy == old(retryPolicy) && backOffPolicy == old(backOffPolicy)
      ensures retryContextCache == old(retryContextCache)
      ensures throwLastExceptionOnExhausted == old(throwLastExceptionOnExhausted)
    {
      var _ := RegisterListenerAt(listener, |listeners|);
    }

    predicate HasListeners()
      reads this
    {
      |listeners| > 0
    }

    /** The run's settings: the template's fields and the callbacks. */
    function SetupOf(calls: seq<Call>, recovery: Option<Recovery>, state: Option<RetryState>): Setup
      reads this, retryContextCache, PolicyObject(backOffPolicy)
    {
      Setup(retryPolicy, PacingOf(backOffPolicy), listeners, throwLastExceptionOnExhausted,
            retryContextCache.capacity, calls, recovery, state)
    }

    /** The world the run starts from. */
    function WorldOf(state: Option<RetryState>, now: int): World
      reads this, retryContextCache, retryContextCache.entries.Values, BackOffObjects(retryContextCache)
      reads PolicyObject(backOffPolicy), Devices(PacingOf(backOffPolicy))
    {
      var p := PacingOf(backOffPolicy);
      World(now, SleptOf(p), DrawsOf(p), retryContextCache.entries.Keys, Hit(retryContextCache, state))
    }

    /** `s` holds the template's settings. */
    ghost predicate Matches(s: Setup)
      reads this, retryContextCache, PolicyObject(backOffPolicy)
    {
      s.policy == retryPolicy && s.pacing == PacingOf(backOffPolicy) && s.listeners == listeners &&
      s.throwLast == throwLastExceptionOnExhausted && s.capacity == retryContextCache.capacity
    }

    // -------------------------------------------------------------------
    // The listeners
    // -------------------------------------------------------------------

    /** `doOpenInterceptors`: `result = result && listener.open(..)` in
      * registration order. */
    method DoOpenInterceptors() returns (running: bool, events: seq<Event>)
      ensures running == AllApprove(listeners)
      ensures events == OpenEvents(listeners)
    {
      var ls := listeners;
      running := true;
      events := [];
      var i := 0;
      while i < |ls|
        invariant 0 <= i <= |ls|
        invariant running <==> forall j :: 0 <= j < i ==> ls[j].approves
        invariant running ==> events == seq(i, j requires 0 <= j < i => Event(ls[j].name, OnOpen))
        invariant !running ==> events == OpenEvents(ls)
      {
        if running {
          events := events + [Event(ls[i].name, OnOpen)];
          running := ls[i].approves;
          if !running {
            OpenCallsStopAtRefusal(ls, i);
          }
        }
        i := i + 1;
      }
      if running {
        OpenCallsWhenAllApprove(ls);
      }
    }

    /** `doOnSuccessInterceptors`, `doOnErrorInterceptors`,
      * `doCloseInterceptors`: `for (i = length; i-- > 0;)`. */
    method NotifyBackwards(n: Notice) returns (events: seq<Event>)
      ensures events == Backwards(listeners, n)
    {
      var ls := listeners;
      events := [];
      var i := |ls|;
      while i > 0
        invariant 0 <= i <= |ls|
        invariant events == seq(|ls| - i, j requires 0 <= j < |ls| - i => Event(ls[|ls| - 1 - j].name, n))
      {
        i := i - 1;
        events := events + [Event(ls[i].name, n)];
      }
    }

    // -------------------------------------------------------------------
    // The stages of doExecute
    // -------------------------------------------------------------------

    /** `registerContext` */
    method RegisterContextOf(context: RetryContext, state: Option<RetryState>) returns (error: Option<Failure>)
      modifies retryContextCache
      ensures var reg := RegisterContext(state, context.State(), old(retryContextCache.entries.Keys),
                                         old(retryContextCache.capacity));
              error == reg.error && retryContextCache.entries.Keys == reg.keys
      ensures retryContextCache.capacity == old(retryContextCache.capacity)
    {
      error := None;
      if state.Some? && state.value.key.Some? {
        var key := state.value.key.value;
        if context.GetRetryCount() > 1 && !retryContextCache.ContainsKey(key) {
          return Some(RetryFailure(RETRY_EXCEPTION, None));
        }
        error := retryContextCache.Put(key, context);
      }
    }

    /** `doOpenInternal`: `policy.open` under the current context, marked
      * with the key of a stateful run and registered at once when global. */
    method OpenFresh(state: Option<RetryState>, sync: RetrySynchronizationManager, now: int)
      returns (context: RetryContext, error: Option<Failure>)
      requires WellFormed(retryPolicy)
      modifies retryContextCache
      ensures fresh(context) && context.parent == sync.current && context.backOffContext == null
      ensures retryContextCache.capacity == old(retryContextCache.capacity)
      ensures var c := Open(retryPolicy, now);
              var ctx := if state.Some? then MarkedWithKey(c, state.value.key) else c;
              var reg := if GLOBAL_STATE in ctx.attrs
                         then RegisterContext(state, ctx, old(retryContextCache.entries.Keys), old(retryContextCache.capacity))
                         else Registration(None, old(retryContextCache.entries.Keys));
              context.State() == ctx && error == reg.error && retryContextCache.entries.Keys == reg.keys
    {
      context := new RetryContext.Opened(retryPolicy, sync.current, now);
      if state.Some? {
        if state.value.key.Some? {
          context.SetAttribute(STATE_KEY, Key(state.value.key.value));
        } else {
          context.RemoveAttribute(STATE_KEY);
        }
      }
      error := None;
      if context.HasAttribute(GLOBAL_STATE) {
        error := RegisterContextOf(context, state);
      }
    }

    /** The cached context, with its end markers removed. */
    method Reuse(key: int) returns (context: RetryContext)
      requires key in retryContextCache.entries
      modifies retryContextCache.entries[key]
      ensures context == old(retryContextCache.entries[key])
      ensures context.State() == old(context.State()).(attrs := old(context.attributes) - {CLOSED, EXHAUSTED, RECOVERED})
      ensures context.backOffContext == old(context.backOffContext)
    {
      var got := retryContextCache.Get(key);
      context := got.value;
      context.RemoveAttribute(CLOSED);
      context.RemoveAttribute(EXHAUSTED);
      context.RemoveAttribute(RECOVERED);
      assert context.attributes == old(context.attributes) - {CLOSED, EXHAUSTED, RECOVERED};
    }

    /** `open` */
    method OpenContext(ghost s: Setup, ghost w: World, state: Option<RetryState>,
                       sync: RetrySynchronizationManager, now: int)
      returns (context: RetryContext, error: Option<Failure>)
      requires Matches(s) && s.state == state && Consistent(s, w)
      requires w.now == now && w.keys == retryContextCache.entries.Keys && w.hit == Hit(retryContextCache, state)
      modifies retryContextCache, retryContextCache.entries.Values
      ensures Matches(s)
      ensures var o := OpenStage(s, w);
              && error == o.error && context.State() == o.ctx
              && BackOffState(context.backOffContext) == o.backOff
              && retryContextCache.entries.Keys == o.keys
              && (o.reused ==> context in old(retryContextCache.entries.Values) &&
                               context.backOffContext == old(context.backOffContext))
              && (!o.reused ==> fresh(context) && context.parent == sync.current && context.backOffContext == null)
    {
      if state.None? || state.value.forceRefresh || state.value.key.None? ||
         !retryContextCache.ContainsKey(state.value.key.value) {
        context, error := OpenFresh(state, sync, now);
      } else {
        context := Reuse(state.value.key.value);
        error := None;
      }
    }

    /** `canRetry(retryPolicy, context) && !context.isExhaustedOnly()` */
    method Permits(context: RetryContext, now: int) returns (go: bool)
      requires WellFormed(retryPolicy) && Fits(retryPolicy, context.State())
      modifies context
      ensures Decision(go, context.State()) == Gate(retryPolicy, old(context.State()), now)
      ensures context.backOffContext == old(context.backOffContext)
    {
      var b := context.CanRetryUnder(retryPolicy, now);
      go := b && !context.IsExhaustedOnly();
    }

    /** `backOffPolicy.backOff(backOffContext)`; the clock moves on by the
      * sleep. */
    method Pause(ghost s: Setup, context: RetryContext, ghost keys: set<int>, l: Locals)
      returns (interrupted: bool, next: Locals)
      requires Matches(s) && (s.pacing.ExponentialPause? ==> context.backOffContext != null)
      modifies Devices(s.pacing), context.backOffContext
      ensures var r := old(RunOf(context, s.pacing, keys, l));
              interrupted == SleepInterrupted(s, r) && RunOf(context, s.pacing, keys, next) == Paused(s, r)
      ensures Matches(s) && context.backOffContext == old(context.backOffContext)
    {
      var pacing := PacingOf(backOffPolicy);
      var before := SleptOf(pacing);
      var error := BackOffWith(backOffPolicy, context.backOffContext);
      var after := SleptOf(pacing);
      var delay := if |after| > |before| then after[|after| - 1] else 0;
      interrupted := error.Some?;
      next := l.(now := if delay > 0 then l.now + delay else l.now);
    }

    /** The first steps of `handleRetryExhausted`: the `EXHAUSTED` flag,
      * and a stateful, non-global context leaves the cache. */
    method MarkExhausted(ghost s: Setup, context: RetryContext, state: Option<RetryState>, l: Locals)
      requires Matches(s) && s.state == state
      modifies context, retryContextCache
      ensures Matches(s) && context.backOffContext == old(context.backOffContext)
      ensures var r := old(RunOf(context, s.pacing, retryContextCache.entries.Keys, l));
              var ctx := r.ctx.(attrs := r.ctx.attrs[EXHAUSTED := Flag(true)]);
              RunOf(context, s.pacing, retryContextCache.entries.Keys, l) ==
                r.(ctx := ctx, keys := if s.state.Some? && GLOBAL_STATE !in ctx.attrs then Forget(r.keys, s.state.value.key) else r.keys)
    {
      context.SetAttribute(EXHAUSTED, Flag(true));
      if state.Some? && !context.HasAttribute(GLOBAL_STATE) && state.value.key.Some? {
        retryContextCache.Remove(state.value.key.value);
      }
    }

    /** `handleRetryExhausted` */
    method HandleExhausted(ghost s: Setup, context: RetryContext, state: Option<RetryState>,
                           recovery: Option<Recovery>, l: Locals)
      returns (verdict: Verdict)
      requires Matches(s) && s.state == state && s.recovery == recovery
      modifies context, retryContextCache
      ensures Matches(s) && context.backOffContext == old(context.backOffContext)
      ensures Exhaust(s, old(RunOf(context, s.pacing, retryContextCache.entries.Keys, l))) ==
              Ending(verdict, RunOf(context, s.pacing, retryContextCache.entries.Keys, l), true)
    {
      MarkExhausted(s, context, state, l);
      var doRecover := !IsTrue(context.attributes, NO_RECOVERY);
      if recovery.Some? && doRecover {
        match recovery.value
        case Recovers(v) =>
          context.SetAttribute(RECOVERED, Flag(true));
          verdict := Returned(v);
        case RecoveryThrows(f) =>
          var raised := if f.InstanceOf(UNDECLARED_THROWABLE_EXCEPTION) then Wrap(f.cause) else f;
          verdict := Raised(Wrap(Some(raised)));
      } else if state.Some? {
        if throwLastExceptionOnExhausted || !doRecover {
          verdict := Raised(if context.lastException.None? then NullPointer() else Wrap(context.lastException));
        } else {
          verdict := Raised(RetryFailure(EXHAUSTED_RETRY_EXCEPTION, context.lastException));
        }
      } else {
        verdict := Raised(Wrap(context.lastException));
      }
    }

    /** `shouldRethrow`, then the global-state `break`. */
    method RethrowOrLeave(ghost s: Setup, context: RetryContext, state: Option<RetryState>,
                          recovery: Option<Recovery>, e: Failure, l: Locals)
      returns (done: bool, verdict: Verdict, exhausted: bool)
      requires Matches(s) && s.state == state && s.recovery == recovery
      modifies context, retryContextCache
      ensures Matches(s) && context.backOffContext == old(context.backOffContext)
      ensures var after := RunOf(context, s.pacing, retryContextCache.entries.Keys, l);
              Rethrow(s, old(RunOf(context, s.pacing, retryContextCache.entries.Keys, l)), e) ==
              if done then Done(Ending(verdict, after, exhausted)) else Again(after)
    {
      if state.Some? && RollbackFor(state.value, e) {
        return true, Raised(Wrap(Some(e))), false;
      }
      if state.Some? && context.HasAttribute(GLOBAL_STATE) {
        verdict := HandleExhausted(s, context, state, recovery, l);
        return true, verdict, true;
      }
      return false, Unfinished, false;
    }

    /** `registerThrowable` and the listeners' `onError`. */
    method RecordFailure(ghost s: Setup, context: RetryContext, state: Option<RetryState>, e: Failure, l: Locals)
      returns (error: Option<Failure>, next: Locals)
      requires Matches(s) && s.state == state
      requires Ready(s, RunOf(context, s.pacing, retryContextCache.entries.Keys, l))
      modifies context, retryContextCache
      ensures Matches(s) && context.backOffContext == old(context.backOffContext)
      ensures Record(s, old(RunOf(context, s.pacing, retryContextCache.entries.Keys, l)), e) ==
              Recorded(error, RunOf(context, s.pacing, retryContextCache.entries.Keys, next))
    {
      context.RegisterUnder(retryPolicy, Some(e), l.now);
      error := RegisterContextOf(context, state);
      var notes := NotifyBackwards(OnError(e));
      next := l.(last := Some(e), events := l.events + notes);
    }

    /** The policy's verdict after a failure and, when it allows a retry,
      * the backoff. */
    method GateThenPause(ghost s: Setup, context: RetryContext, l: Locals)
      returns (go: bool, interrupted: bool, next: Locals)
      requires Matches(s) && Ready(s, RunOf(context, s.pacing, retryContextCache.entries.Keys, l))
      modifies context, context.backOffContext, Devices(s.pacing)
      ensures Matches(s) && context.backOffContext == old(context.backOffContext)
      ensures var r := old(RunOf(context, s.pacing, retryContextCache.entries.Keys, l));
              var g := Gate(s.policy, r.ctx, r.now);
              var r1 := r.(ctx := g.state);
              && go == g.answer
              && interrupted == (go && SleepInterrupted(s, r1))
              && RunOf(context, s.pacing, retryContextCache.entries.Keys, next) == if go then Paused(s, r1) else r1
    {
      next := l;
      interrupted := false;
      ghost var r := RunOf(context, s.pacing, retryContextCache.entries.Keys, l);
      go := Permits(context, l.now);
      assert Matches(s);
      assert RunOf(context, s.pacing, retryContextCache.entries.Keys, l) == r.(ctx := Gate(s.policy, r.ctx, r.now).state);
      if go {
        interrupted, next := Pause(s, context, retryContextCache.entries.Keys, l);
      }
    }

    /** The backoff when the policy still allows a retry, then the
      * rethrow check. */
    method BackOffThenRethrowOrLeave(ghost s: Setup, context: RetryContext, state: Option<RetryState>,
                                     recovery: Option<Recovery>, e: Failure, l: Locals)
      returns (done: bool, verdict: Verdict, exhausted: bool, next: Locals)
      requires Matches(s) && s.state == state && s.recovery == recovery
      requires Ready(s, RunOf(context, s.pacing, retryContextCache.entries.Keys, l))
      modifies context, context.backOffContext, retryContextCache, Devices(s.pacing)
      ensures Matches(s) && context.backOffContext == old(context.backOffContext)
      ensures var after := RunOf(context, s.pacing, retryContextCache.entries.Keys, next);
              BackOffThenRethrow(s, old(RunOf(context, s.pacing, retryContextCache.entries.Keys, l)), e) ==
              if done then Done(Ending(verdict, after, exhausted)) else Again(after)
    {
      var go, interrupted;
      go, interrupted, next := GateThenPause(s, context, l);
      if interrupted {
        return true, Raised(BackOffInterrupted()), false, next;
      }
      done, verdict, exhausted := RethrowOrLeave(s, context, state, recovery, e, next);
    }

    /** The catch block of the loop, for the callback's error `e`. */
    method OnFailure(ghost s: Setup, context: RetryContext, state: Option<RetryState>,
                     recovery: Option<Recovery>, e: Failure, l: Locals)
      returns (done: bool, verdict: Verdict, exhausted: bool, next: Locals)
      requires Matches(s) && s.state == state && s.recovery == recovery
      requires Ready(s, RunOf(context, s.pacing, retryContextCache.entries.Keys, l))
      modifies context, context.backOffContext, retryContextCache, Devices(s.pacing)
      ensures Matches(s) && context.backOffContext == old(context.backOffContext)
      ensures var after := RunOf(context, s.pacing, retryContextCache.entries.Keys, next);
              AfterFailure(s, old(RunOf(context, s.pacing, retryContextCache.entries.Keys, l)), e) ==
              if done then Done(Ending(verdict, after, exhausted)) else Again(after)
    {
      var error;
      error, next := RecordFailure(s, context, state, e, l);
      if error.Some? {
        return true, Raised(Terminated(error)), false, next;
      }
      done, verdict, exhausted, next := BackOffThenRethrowOrLeave(s, context, state, recovery, e, next);
    }

    /** A call of the callback that took `elapsed` and raised `e`: the
      * attempt is counted and the failure handled. */
    method FailedCall(ghost s: Setup, ghost r: Run, context: RetryContext, state: Option<RetryState>,
                      recovery: Option<Recovery>, elapsed: nat, e: Failure, l: Locals)
      returns (done: bool, verdict: Verdict, exhausted: bool, next: Locals)
      requires Matches(s) && s.state == state && s.recovery == recovery
      requires r == RunOf(context, s.pacing, retryContextCache.entries.Keys, l) && Ready(s, r) && l.made < |s.calls|
      modifies context, context.backOffContext, retryContextCache, Devices(s.pacing)
      ensures Matches(s) && context.backOffContext == old(context.backOffContext)
      ensures var after := RunOf(context, s.pacing, retryContextCache.entries.Keys, next);
              Called(s, r, elapsed, Throws(e)) ==
              if done then Done(Ending(verdict, after, exhausted)) else Again(after)
    {
      ReadyAfterCall(s, r, elapsed);
      CalledThrows(s, r, elapsed, e);
      var started := Locals(l.made + 1, l.now + elapsed, l.events, None);
      assert RunOf(context, s.pacing, retryContextCache.entries.Keys, started) ==
             r.(made := r.made + 1, now := r.now + elapsed, last := None);
      done, verdict, exhausted, next := OnFailure(s, context, state, recovery, e, started);
    }

    /** A call of the callback that took `elapsed` and returned `v`: the
      * listeners' `onSuccess`, last registered first. */
    method SucceededCall(ghost s: Setup, ghost r: Run, context: RetryContext, elapsed: nat, v: int, l: Locals)
      returns (next: Locals)
      requires Matches(s) && r == RunOf(context, s.pacing, retryContextCache.entries.Keys, l)
      requires Ready(s, r) && l.made < |s.calls|
      ensures Called(s, r, elapsed, Returns(v)) ==
              Done(Ending(Returned(v), RunOf(context, s.pacing, retryContextCache.entries.Keys, next), false))
    {
      var notes := NotifyBackwards(OnSuccess(v));
      next := Locals(l.made + 1, l.now + elapsed, l.events + notes, None);
    }

    /** The body of the loop: one call of the callback and what follows. */
    method CallOnce(ghost s: Setup, ghost r: Run, context: RetryContext, state: Option<RetryState>,
                    calls: seq<Call>, recovery: Option<Recovery>, l: Locals)
      returns (done: bool, verdict: Verdict, exhausted: bool, next: Locals)
      requires Matches(s) && s.state == state && s.recovery == recovery && s.calls == calls
      requires r == RunOf(context, s.pacing, retryContextCache.entries.Keys, l) && Ready(s, r)
      modifies context, context.backOffContext, retryContextCache, Devices(s.pacing)
      ensures Matches(s) && context.backOffContext == old(context.backOffContext)
      ensures var after := RunOf(context, s.pacing, retryContextCache.entries.Keys, next);
              Invoke(s, r) == if done then Done(Ending(verdict, after, exhausted)) else Again(after)
    {
      if l.made == |calls| {
        return true, Unfinished, false, l;
      }
      var call := calls[l.made];
      match call.outcome
      case Returns(v) =>
        next := SucceededCall(s, r, context, call.elapsed, v, l);
        return true, Returned(v), false, next;
      case Throws(e) =>
        done, verdict, exhausted, next := FailedCall(s, r, context, state, recovery, call.elapsed, e, l);
    }

    /** One turn of the loop: the guard, then the body. */
    method TakeTurn(ghost s: Setup, context: RetryContext, state: Option<RetryState>,
                    calls: seq<Call>, recovery: Option<Recovery>, l: Locals)
      returns (done: bool, verdict: Verdict, exhausted: bool, next: Locals)
      requires Matches(s) && s.state == state && s.recovery == recovery && s.calls == calls
      requires Ready(s, RunOf(context, s.pacing, retryContextCache.entries.Keys, l))
      modifies context, context.backOffContext, retryContextCache, Devices(s.pacing)
      ensures Matches(s) && context.backOffContext == old(context.backOffContext)
      ensures var after := RunOf(context, s.pacing, retryContextCache.entries.Keys, next);
              Iteration(s, old(RunOf(context, s.pacing, retryContextCache.entries.Keys, l))) ==
              if done then Done(Ending(verdict, after, exhausted)) else Again(after)
    {
      var go := Permits(context, l.now);
      if !go {
        verdict := HandleExhausted(s, context, state, recovery, l);
        return true, verdict, true, l;
      }
      done, verdict, exhausted, next := CallOnce(s, RunOf(context, s.pacing, retryContextCache.entries.Keys, l), context, state, calls, recovery, l);
    }

    /** Before the loop: `MAX_ATTEMPTS` and the backoff context. */
    method Prepare(ghost s: Setup, context: RetryContext, ghost keys: set<int>, l: Locals)
      requires Matches(s) && WellFormed(s.policy) && Fits(s.policy, context.State()) && l.made == 0
      modifies context
      ensures context.backOffContext == old(context.backOffContext) || fresh(context.backOffContext)
      ensures RunOf(context, s.pacing, keys, l) == Prepared(s, old(RunOf(context, s.pacing, keys, l)))
    {
      if !context.HasAttribute(MAX_ATTEMPTS) {
        context.SetAttribute(MAX_ATTEMPTS, Number(MaxAttemptsOf(retryPolicy)));
      }
      if context.backOffContext == null {
        var started := StartWith(backOffPolicy);
        if started != null {
          context.SetBackOffContext(started);
        }
      }
    }

    /** `while (canRetry(retryPolicy, context) && !context.isExhaustedOnly())` */
    method RetryLoop(ghost s: Setup, context: RetryContext, state: Option<RetryState>,
                     calls: seq<Call>, recovery: Option<Recovery>, l: Locals)
      returns (verdict: Verdict, exhausted: bool, next: Locals)
      requires Matches(s) && s.state == state && s.recovery == recovery && s.calls == calls
      requires Ready(s, RunOf(context, s.pacing, retryContextCache.entries.Keys, l))
      modifies context, context.backOffContext, retryContextCache, Devices(s.pacing)
      ensures Matches(s)
      ensures Loop(s, old(RunOf(context, s.pacing, retryContextCache.entries.Keys, l))) ==
              Ending(verdict, RunOf(context, s.pacing, retryContextCache.entries.Keys, next), exhausted)
    {
      next := l;
      while true
        invariant Matches(s)
        invariant context.backOffContext == old(context.backOffContext)
        invariant Ready(s, RunOf(context, s.pacing, retryContextCache.entries.Keys, next))
        invariant Loop(s, RunOf(context, s.pacing, retryContextCache.entries.Keys, next)) ==
                  Loop(s, old(RunOf(context, s.pacing, retryContextCache.entries.Keys, l)))
        decreases |calls| - next.made
      {
        var done;
        done, verdict, exhausted, next := TakeTurn(s, context, state, calls, recovery, next);
        if done {
          break;
        }
      }
    }

    /** The try block: the listeners' `open`, then the loop. */
    method TryBlock(ghost s: Setup, context: RetryContext, state: Option<RetryState>,
                    calls: seq<Call>, recovery: Option<Recovery>, l: Locals)
      returns (verdict: Verdict, exhausted: bool, next: Locals)
      requires Matches(s) && s.state == state && s.recovery == recovery && s.calls == calls
      requires WellFormed(s.policy) && Fits(s.policy, context.State()) && l.made == 0
      modifies context, context.backOffContext, retryContextCache, Devices(s.pacing)
      ensures Matches(s)
      ensures Attempt(s, old(RunOf(context, s.pacing, retryContextCache.entries.Keys, l))) ==
              Ending(verdict, RunOf(context, s.pacing, retryContextCache.entries.Keys, next), exhausted)
    {
      var running, openEvents := DoOpenInterceptors();
      next := l.(events := openEvents);
      if !running {
        return Raised(Terminated(None)), false, next;
      }
      Prepare(s, context, retryContextCache.entries.Keys, next);
      verdict, exhausted, next := RetryLoop(s, context, state, calls, recovery, next);
    }

    /** The finally block's `close` and the listeners' `close`. */
    method Close(ghost s: Setup, context: RetryContext, state: Option<RetryState>,
                 verdict: Verdict, exhausted: bool, l: Locals)
      returns (next: Locals)
      requires Matches(s) && s.state == state && !verdict.Unfinished?
      modifies context, retryContextCache
      ensures Matches(s)
      ensures Finish(s, Ending(verdict, old(RunOf(context, s.pacing, retryContextCache.entries.Keys, l)), exhausted)) ==
              Ending(verdict, RunOf(context, s.pacing, retryContextCache.entries.Keys, next), exhausted)
    {
      var succeeded := l.last.None? || exhausted;
      if state.Some? {
        if succeeded {
          if !context.HasAttribute(GLOBAL_STATE) && state.value.key.Some? {
            retryContextCache.Remove(state.value.key.value);
          }
          context.SetAttribute(CLOSED, Flag(true));
        }
      } else {
        context.SetAttribute(CLOSED, Flag(true));
      }
      var notes := NotifyBackwards(OnClose(l.last));
      next := l.(events := l.events + notes);
    }

    /** The context registered with the synchronization manager for the
      * try block, then closed and cleared in the finally block. */
    method RunRegistered(ghost s: Setup, context: RetryContext, state: Option<RetryState>,
                         calls: seq<Call>, recovery: Option<Recovery>,
                         sync: RetrySynchronizationManager, l: Locals)
      returns (verdict: Verdict, exhausted: bool, next: Locals)
      requires Matches(s) && s.state == state && s.recovery == recovery && s.calls == calls
      requires WellFormed(s.policy) && Fits(s.policy, context.State()) && l.made == 0
      modifies context, context.backOffContext, retryContextCache, Devices(s.pacing), sync
      ensures Finish(s, Attempt(s, old(RunOf(context, s.pacing, retryContextCache.entries.Keys, l)))) ==
              Ending(verdict, RunOf(context, s.pacing, retryContextCache.entries.Keys, next), exhausted)
      ensures sync.current == if verdict.Unfinished? then context else context.parent
    {
      ghost var r := RunOf(context, s.pacing, retryContextCache.entries.Keys, l);
      var _ := sync.Register(context);
      assert RunOf(context, s.pacing, retryContextCache.entries.Keys, l) == r;
      verdict, exhausted, next := TryThenClose(s, context, state, calls, recovery, l);
      if !verdict.Unfinished? {
        ghost var after := RunOf(context, s.pacing, retryContextCache.entries.Keys, next);
        var _ := sync.Clear();
        assert RunOf(context, s.pacing, retryContextCache.entries.Keys, next) == after;
      }
    }

    /** The try block, then `close` unless the script ran out. */
    method TryThenClose(ghost s: Setup, context: RetryContext, state: Option<RetryState>,
                        calls: seq<Call>, recovery: Option<Recovery>, l: Locals)
      returns (verdict: Verdict, exhausted: bool, next: Locals)
      requires Matches(s) && s.state == state && s.recovery == recovery && s.calls == calls
      requires WellFormed(s.policy) && Fits(s.policy, context.State()) && l.made == 0
      modifies context, context.backOffContext, retryContextCache, Devices(s.pacing)
      ensures Finish(s, Attempt(s, old(RunOf(context, s.pacing, retryContextCache.entries.Keys, l)))) ==
              Ending(verdict, RunOf(context, s.pacing, retryContextCache.entries.Keys, next), exhausted)
    {
      verdict, exhausted, next := TryBlock(s, context, state, calls, recovery, l);
      if !verdict.Unfinished? {
        next := Close(s, context, state, verdict, exhausted, next);
      }
    }

    /** `doExecute(retryCallback, recoveryCallback, state)` over the script
      * `calls`, starting at clock reading `now`. The outcome, the context,
      * the devices, the cache keys and the events are those of `Execute`.
      * When `open` raises, the synchronization manager is left as it was.
      * Otherwise `clear` makes the context's parent current: for a fresh
      * context that is the context current at the call, but for a reused
      * cached context it is the parent from its first `open`. A script
      * that runs out (`Unfinished`) leaves the context itself current. */
    method DoExecute(calls: seq<Call>, recovery: Option<Recovery>, state: Option<RetryState>,
                     sync: RetrySynchronizationManager, now: int)
      returns (verdict: Verdict, context: RetryContext, locals: Locals, exhausted: bool)
      requires WellFormed(retryPolicy)
      requires Consistent(SetupOf(calls, recovery, state), WorldOf(state, now))
      modifies retryContextCache, retryContextCache.entries.Values, BackOffObjects(retryContextCache)
      modifies Devices(PacingOf(backOffPolicy)), sync
      ensures Execute(old(SetupOf(calls, recovery, state)), old(WorldOf(state, now))) ==
              Ending(verdict, RunOf(context, old(PacingOf(backOffPolicy)), retryContextCache.entries.Keys, locals), exhausted)
      ensures old(OpenFails(SetupOf(calls, recovery, state), WorldOf(state, now))) ==> sync.current == old(sync.current)
      ensures !old(OpenFails(SetupOf(calls, recovery, state), WorldOf(state, now))) ==>
                sync.current == if verdict.Unfinished? then context else context.parent
      ensures fresh(context) ==> context.parent == old(sync.current)
    {
      ghost var s := SetupOf(calls, recovery, state);
      ghost var w := WorldOf(state, now);
      var error;
      context, error := OpenContext(s, w, state, sync, now);
      locals := Locals(0, now, [], None);
      ghost var start := RunOf(context, s.pacing, retryContextCache.entries.Keys, locals);
      assert start == Start(s, w);
      if error.Some? {
        return Raised(error.value), context, locals, false;
      }
      if !fresh(context) {
        assert old(context.backOffContext) != null ==> old(context.backOffContext) in old(BackOffObjects(retryContextCache));
      }
      verdict, exhausted, locals := RunRegistered(s, context, state, calls, recovery, sync, locals);
    }
  }
}
