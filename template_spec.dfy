/** `RetryTemplate.doExecute` as values: one run of the template over a
  * scripted retry callback, from `open` to the `finally` block. The
  * imperative template in module `Templates` is proved against `Execute`.
  *
  * The callback is a script of calls, each taking some time and either
  * returning a value or raising an error; the clock is the run's `now`,
  * advanced by each call and each sleep. Listeners answer `open` with a
  * fixed verdict, and what they are told is recorded as events. */
module Execution {
  import opened Types
  import opened Policies
  import opened BackOffs
  import opened Contexts
  import Caches

  /** A `RetryListener`: its name and what its `open` answers. */
  datatype RetryListener = RetryListener(name: nat, approves: bool)

  datatype Outcome = Returns(value: int) | Throws(error: Failure)

  /** One invocation of the retry callback. */
  datatype Call = Call(elapsed: nat, outcome: Outcome)

  /** What the recovery callback does. */
  datatype Recovery = Recovers(value: int) | RecoveryThrows(error: Failure)

  /** What a listener is told. */
  datatype Notice = OnOpen | OnSuccess(value: int) | OnError(error: Failure) | OnClose(last: Option<Failure>)

  datatype Event = Event(listener: nat, notice: Notice)

  /** How a run ends: a value, an error, or the script of calls ran out
    * while the template would call once more. */
  datatype Verdict = Returned(value: int) | Raised(error: Failure) | Unfinished

  /** What a run is given: the template's settings and the callbacks. */
  datatype Setup = Setup(policy: Policy, pacing: Pacing, listeners: seq<RetryListener>,
                         throwLast: bool, capacity: int,
                         calls: seq<Call>, recovery: Option<Recovery>, state: Option<RetryState>)

  /** A cached context: its state and its backoff context. */
  datatype Held = Held(ctx: CtxState, backOff: Option<ExpState>)

  /** The world before the run: the clock, the sleeper's log, the draws
    * taken, the keys of the context cache and the context cached under
    * the run's key. */
  datatype World = World(now: int, slept: seq<int>, draws: nat, keys: set<int>, hit: Option<Held>)

  /** The state of a run: the context and its backoff context, the calls
    * made, the clock, the devices, the cache keys, the events and the
    * local `lastException`. */
  datatype Run = Run(ctx: CtxState, backOff: Option<ExpState>, made: nat, now: int,
                     slept: seq<int>, draws: nat, keys: set<int>, events: seq<Event>,
                     last: Option<Failure>)

  /** A verdict, the run at that point, and whether the exhausted path was
    * taken (the local `exhausted`). */
  datatype Ending = Ending(verdict: Verdict, run: Run, exhausted: bool)

  // ---------------------------------------------------------------------
  // Errors and listeners
  // ---------------------------------------------------------------------

  /** `wrapIfNecessary`: errors and exceptions pass unchanged; any other
    * throwable, or null, becomes the cause of a `RetryException`. */
  function Wrap(t: Option<Failure>): Failure {
    if t.Some? && (t.value.InstanceOf(ERROR) || t.value.InstanceOf(EXCEPTION)) then t.value
    else RetryFailure(RETRY_EXCEPTION, t)
  }

  function Terminated(cause: Option<Failure>): Failure {
    RetryFailure(TERMINATED_RETRY_EXCEPTION, cause)
  }

  predicate AllApprove(ls: seq<RetryListener>) {
    forall i :: 0 <= i < |ls| ==> ls[i].approves
  }

  /** How many listeners `open` is called on: `result && listener.open(..)`
    * stops calling after the first refusal. */
  function OpenCalls(ls: seq<RetryListener>): (n: nat)
    ensures n <= |ls|
    decreases |ls|
  {
    if |ls| == 0 then 0 else if !ls[0].approves then 1 else 1 + OpenCalls(ls[1..])
  }

  function OpenEvents(ls: seq<RetryListener>): seq<Event> {
    seq(OpenCalls(ls), i requires 0 <= i < OpenCalls(ls) => Event(ls[i].name, OnOpen))
  }

  /** A notice given to every listener, last registered first. */
  function Backwards(ls: seq<RetryListener>, n: Notice): seq<Event> {
    seq(|ls|, i requires 0 <= i < |ls| => Event(ls[|ls| - 1 - i].name, n))
  }

  /** The cache without `key` (`remove(null)` changes nothing). */
  function Forget(keys: set<int>, key: Option<int>): set<int> {
    if key.Some? then keys - {key.value} else keys
  }

  // ---------------------------------------------------------------------
  // The stages of doExecute
  // ---------------------------------------------------------------------

  /** The outcome of `registerContext`: an error, and the cache keys. */
  datatype Registration = Registration(error: Option<Failure>, keys: set<int>)

  /** `registerContext`: a stateful run with a key stores its context, after
    * checking that a retried context is still cached; `put` may refuse. */
  function RegisterContext(state: Option<RetryState>, ctx: CtxState, keys: set<int>, capacity: int): Registration {
    if state.None? || state.value.key.None? then Registration(None, keys)
    else
      var key := state.value.key.value;
      if RetryCount(ctx) > 1 && key !in keys then Registration(Some(RetryFailure(RETRY_EXCEPTION, None)), keys)
      else if |keys| >= capacity then Registration(Some(Caches.CapacityExceeded()), keys)
      else Registration(None, keys + {key})
  }

  /** The context cache holds the run's key. */
  predicate Cached(s: Setup, w: World) {
    s.state.Some? && s.state.value.key.Some? && s.state.value.key.value in w.keys
  }

  /** The template's policy is well formed and a cached context has its
    * shape. */
  predicate Consistent(s: Setup, w: World) {
    WellFormed(s.policy) && (Cached(s, w) ==> w.hit.Some? && Fits(s.policy, w.hit.value.ctx))
  }

  /** `setAttribute(STATE_KEY, state.getKey())`: setting an attribute to
    * null removes it, so a null key leaves the context without the mark. */
  function MarkedWithKey(c: CtxState, key: Option<int>): (m: CtxState)
    ensures STATE_KEY in m.attrs <==> key.Some?
    ensures key.Some? ==> m.attrs[STATE_KEY] == Key(key.value)
    ensures m.attrs - {STATE_KEY} == c.attrs - {STATE_KEY}
    ensures m.(attrs := c.attrs) == c
  {
    if key.Some? then c.(attrs := c.attrs[STATE_KEY := Key(key.value)])
    else c.(attrs := c.attrs - {STATE_KEY})
  }

  datatype Opening = Opening(error: Option<Failure>, ctx: CtxState, backOff: Option<ExpState>,
                             keys: set<int>, reused: bool)

  /** `open`: a fresh context for a stateless run, a refreshing run or a
    * key not cached (marked with the key, and registered at once when it is
    * global); otherwise the cached context with its end markers removed. */
  function OpenStage(s: Setup, w: World): (o: Opening)
    requires Consistent(s, w)
    ensures Fits(s.policy, o.ctx)
  {
    if s.state.None? then Opening(None, Open(s.policy, w.now), None, w.keys, false)
    else if s.state.value.forceRefresh || !Cached(s, w) then
      var c := Open(s.policy, w.now);
      var ctx := MarkedWithKey(c, s.state.value.key);
      var reg := if GLOBAL_STATE in ctx.attrs then RegisterContext(s.state, ctx, w.keys, s.capacity)
                 else Registration(None, w.keys);
      Opening(reg.error, ctx, None, reg.keys, false)
    else
      var h := w.hit.value;
      Opening(None, h.ctx.(attrs := h.ctx.attrs - {CLOSED, EXHAUSTED, RECOVERED}), h.backOff, w.keys, true)
  }

  /** What the loop needs of a run. */
  predicate Ready(s: Setup, r: Run) {
    WellFormed(s.policy) && Fits(s.policy, r.ctx) &&
    (s.pacing.ExponentialPause? ==> r.backOff.Some?) && r.made <= |s.calls|
  }

  /** `canRetry(retryPolicy, context) && !context.isExhaustedOnly()` */
  function Gate(p: Policy, ctx: CtxState, now: int): (d: Decision)
    requires WellFormed(p) && Fits(p, ctx)
    ensures Fits(p, d.state) && SameRecord(ctx, d.state)
  {
    var c := CanRetry(p, ctx, now);
    Decision(c.answer && !c.state.exhaustedOnly, c.state)
  }

  /** One turn of the loop either ends the run or leads to the next turn. */
  datatype Turn = Done(ending: Ending) | Again(next: Run)

  /** `handleRetryExhausted` */
  function Exhaust(s: Setup, r: Run): Ending {
    var ctx := r.ctx.(attrs := r.ctx.attrs[EXHAUSTED := Flag(true)]);
    var keys := if s.state.Some? && GLOBAL_STATE !in ctx.attrs then Forget(r.keys, s.state.value.key) else r.keys;
    var r1 := r.(ctx := ctx, keys := keys);
    var doRecover := !IsTrue(ctx.attrs, NO_RECOVERY);
    if s.recovery.Some? && doRecover then
      match s.recovery.value
      case Recovers(v) => Ending(Returned(v), r1.(ctx := ctx.(attrs := ctx.attrs[RECOVERED := Flag(true)])), true)
      case RecoveryThrows(f) =>
        var raised := if f.InstanceOf(UNDECLARED_THROWABLE_EXCEPTION) then Wrap(f.cause) else f;
        Ending(Raised(Wrap(Some(raised))), r1, true)
    else if s.state.Some? then
      if s.throwLast || !doRecover then
        Ending(Raised(if ctx.last.None? then NullPointer() else Wrap(ctx.last)), r1, true)
      else
        Ending(Raised(RetryFailure(EXHAUSTED_RETRY_EXCEPTION, ctx.last)), r1, true)
    else
      Ending(Raised(Wrap(ctx.last)), r1, true)
  }

  /** After a failure and its backoff: a stateful run rethrows what its
    * rollback classifier accepts, and a global context leaves the loop. */
  function Rethrow(s: Setup, r: Run, e: Failure): Turn {
    if s.state.Some? && RollbackFor(s.state.value, e) then Done(Ending(Raised(Wrap(Some(e))), r, false))
    else if s.state.Some? && GLOBAL_STATE in r.ctx.attrs then Done(Exhaust(s, r))
    else Again(r)
  }

  /** The sleep a backoff asks for and what it does to the run. */
  function Paused(s: Setup, r: Run): (r1: Run)
    requires s.pacing.ExponentialPause? ==> r.backOff.Some?
  {
    var p := PauseOf(s.pacing, r.backOff, r.draws);
    r.(backOff := p.context, draws := r.draws + p.draws,
       slept := if p.delay.Some? then r.slept + [p.delay.value] else r.slept,
       now := if p.delay.Some? && p.delay.value > 0 then r.now + p.delay.value else r.now)
  }

  /** The backoff's sleep is interrupted. */
  predicate SleepInterrupted(s: Setup, r: Run)
    requires s.pacing.ExponentialPause? ==> r.backOff.Some?
  {
    PauseOf(s.pacing, r.backOff, r.draws).delay.Some? && |r.slept| in s.pacing.sleeper.interrupts
  }

  /** A registration outcome and the run after it. */
  datatype Recorded = Recorded(error: Option<Failure>, run: Run)

  /** `registerThrowable` (the policy's, then `registerContext`) and the
    * listeners' `onError`, which run whether or not registering raised. */
  function Record(s: Setup, r: Run, e: Failure): (rec: Recorded)
    requires Ready(s, r)
    ensures Ready(s, rec.run) && rec.run.made == r.made
  {
    var ctx := Register(s.policy, r.ctx, Some(e), r.now);
    var reg := RegisterContext(s.state, ctx, r.keys, s.capacity);
    Recorded(reg.error, r.(ctx := ctx, last := Some(e), keys := reg.keys,
                           events := r.events + Backwards(s.listeners, OnError(e))))
  }

  /** The backoff when the policy still allows a retry, then `Rethrow`. */
  function BackOffThenRethrow(s: Setup, r: Run, e: Failure): (t: Turn)
    requires Ready(s, r)
    ensures t.Again? ==> Ready(s, t.next) && t.next.made == r.made
  {
    var g := Gate(s.policy, r.ctx, r.now);
    var r1 := r.(ctx := g.state);
    if !g.answer then Rethrow(s, r1, e)
    else if SleepInterrupted(s, r1) then Done(Ending(Raised(BackOffInterrupted()), Paused(s, r1), false))
    else Rethrow(s, Paused(s, r1), e)
  }

  /** The catch block of the loop, for the call's error `e`. */
  function AfterFailure(s: Setup, r: Run, e: Failure): (t: Turn)
    requires Ready(s, r)
    ensures t.Again? ==> Ready(s, t.next) && t.next.made == r.made
  {
    var rec := Record(s, r, e);
    if rec.error.Some? then Done(Ending(Raised(Terminated(rec.error)), rec.run, false))
    else BackOffThenRethrow(s, rec.run, e)
  }

  /** The next call of the callback, taking `elapsed` and ending with
    * `outcome`: a value ends the run after the listeners' `onSuccess`; an
    * error goes to the catch block. */
  function Called(s: Setup, r: Run, elapsed: nat, outcome: Outcome): (t: Turn)
    requires Ready(s, r) && r.made < |s.calls|
    ensures t.Again? ==> Ready(s, t.next) && t.next.made == r.made + 1
  {
    var r1 := r.(made := r.made + 1, now := r.now + elapsed, last := None);
    match outcome
    case Returns(v) =>
      Done(Ending(Returned(v), r1.(events := r1.events + Backwards(s.listeners, OnSuccess(v))), false))
    case Throws(e) => AfterFailure(s, r1, e)
  }

  /** The body of the loop: the next call of the callback, or the end of
    * the run when the script has no call left. */
  function Invoke(s: Setup, r: Run): (t: Turn)
    requires Ready(s, r)
    ensures t.Again? ==> Ready(s, t.next) && t.next.made == r.made + 1
  {
    if r.made == |s.calls| then Done(Ending(Unfinished, r, false))
    else Called(s, r, s.calls[r.made].elapsed, s.calls[r.made].outcome)
  }

  /** One turn of `while (canRetry && !exhaustedOnly)`. */
  function Iteration(s: Setup, r: Run): (t: Turn)
    requires Ready(s, r)
    ensures t.Again? ==> Ready(s, t.next) && t.next.made == r.made + 1
  {
    var g := Gate(s.policy, r.ctx, r.now);
    var r0 := r.(ctx := g.state);
    if !g.answer then Done(Exhaust(s, r0)) else Invoke(s, r0)
  }

  /** The loop, turn after turn, until a turn ends the run. */
  function Loop(s: Setup, r: Run): Ending
    requires Ready(s, r)
    decreases |s.calls| - r.made
  {
    match Iteration(s, r)
    case Done(ending) => ending
    case Again(next) => Loop(s, next)
  }

  /** Before the loop: the `MAX_ATTEMPTS` attribute when absent, and the
    * backoff context (the context's own, else a started one). */
  function Prepared(s: Setup, r: Run): (r1: Run)
    requires WellFormed(s.policy) && Fits(s.policy, r.ctx) && r.made == 0
    ensures Ready(s, r1)
  {
    var attrs := if MAX_ATTEMPTS in r.ctx.attrs then r.ctx.attrs
                 else r.ctx.attrs[MAX_ATTEMPTS := Number(MaxAttemptsOf(s.policy))];
    var backOff := if r.backOff.Some? then r.backOff else StartOf(s.pacing);
    r.(ctx := r.ctx.(attrs := attrs), backOff := backOff)
  }

  /** The try block: the listeners' `open`, then the loop. */
  function Attempt(s: Setup, r: Run): Ending
    requires WellFormed(s.policy) && Fits(s.policy, r.ctx) && r.made == 0
  {
    var events := OpenEvents(s.listeners);
    if !AllApprove(s.listeners) then Ending(Raised(Terminated(None)), r.(events := events), false)
    else Loop(s, Prepared(s, r.(events := events)))
  }

  /** The finally block: `close` (a stateless run is always closed; a
    * stateful one only when it succeeded or was exhausted, and then its
    * key leaves the cache unless it is global), then the listeners'
    * `close` with the local `lastException`. */
  function Finish(s: Setup, e: Ending): Ending {
    if e.verdict.Unfinished? then e
    else
      var r := e.run;
      var succeeded := r.last.None? || e.exhausted;
      var closed := r.ctx.(attrs := r.ctx.attrs[CLOSED := Flag(true)]);
      var r1 :=
        if s.state.None? then r.(ctx := closed)
        else if !succeeded then r
        else r.(ctx := closed, keys := if GLOBAL_STATE in r.ctx.attrs then r.keys else Forget(r.keys, s.state.value.key));
      e.(run := r1.(events := r1.events + Backwards(s.listeners, OnClose(r.last))))
  }

  /** The run that `open` starts. */
  function Start(s: Setup, w: World): Run
    requires Consistent(s, w)
  {
    var o := OpenStage(s, w);
    Run(o.ctx, o.backOff, 0, w.now, w.slept, w.draws, o.keys, [], None)
  }

  /** `open` raised: nothing else happened, not even `register`. */
  predicate OpenFails(s: Setup, w: World)
    requires Consistent(s, w)
  {
    OpenStage(s, w).error.Some?
  }

  /** `doExecute` */
  function Execute(s: Setup, w: World): Ending
    requires Consistent(s, w)
  {
    var o := OpenStage(s, w);
    var r := Start(s, w);
    if o.error.Some? then Ending(Raised(o.error.value), r, false)
    else Finish(s, Attempt(s, r))
  }

  // ---------------------------------------------------------------------
  // Properties of the listener notices
  // ---------------------------------------------------------------------

  /** When listener `k` is the first to refuse, `open` is called on the
    * first `k + 1` listeners. */
  lemma {:induction false} OpenCallsStopAtRefusal(ls: seq<RetryListener>, k: nat)
    requires k < |ls| && !ls[k].approves
    requires forall j :: 0 <= j < k ==> ls[j].approves
    ensures OpenCalls(ls) == k + 1
    ensures !AllApprove(ls)
    decreases k
  {
    if k > 0 {
      OpenCallsStopAtRefusal(ls[1..], k - 1);
    }
  }

  /** When every listener approves, `open` is called on all of them. */
  lemma {:induction false} OpenCallsWhenAllApprove(ls: seq<RetryListener>)
    requires AllApprove(ls)
    ensures OpenCalls(ls) == |ls|
    decreases |ls|
  {
    if |ls| > 0 {
      OpenCallsWhenAllApprove(ls[1..]);
    }
  }

  /** A call leaves the run ready for the next stage. */
  lemma ReadyAfterCall(s: Setup, r: Run, elapsed: nat)
    requires Ready(s, r) && r.made < |s.calls|
    ensures Ready(s, r.(made := r.made + 1, now := r.now + elapsed, last := None))
  {
  }

  /** A call that takes `elapsed` and raises `e` goes to the catch block
    * with the run counted and its clock moved on. */
  lemma CalledThrows(s: Setup, r: Run, elapsed: nat, e: Failure)
    requires Ready(s, r) && r.made < |s.calls|
    requires Ready(s, r.(made := r.made + 1, now := r.now + elapsed, last := None))
    ensures Called(s, r, elapsed, Throws(e)) == AfterFailure(s, r.(made := r.made + 1, now := r.now + elapsed, last := None), e)
  {
  }
}
