/** The retry policies (`RetryPolicy` and its implementations) and the
  * contexts they open. A policy is a value; the state of a context is a
  * value too, and each operation takes the policy, the context state and
  * the clock reading `now` and returns the new context state. The
  * top-level context object that the template mutates is the class in
  * module `Contexts`. */
module Policies {
  import opened Types
  import opened Classify
  import ClassifyProps

  const DEFAULT_MAX_ATTEMPTS: int := 3
  const DEFAULT_TIMEOUT: int := 1000
  const DEFAULT_RESET_TIMEOUT: int := 20000
  const DEFAULT_OPEN_TIMEOUT: int := 5000

  /** The classifier of an `ExceptionClassifierRetryPolicy`. Policies are
    * named by their index in the policy's list, which stands for object
    * identity: one index, one child context. */
  datatype PolicySelector =
    | Constant(index: nat)                                  // ClassifierSupport
    | BySubclass(typeMap: map<TypeId, nat>, defaultIndex: nat)  // SubclassClassifier

  datatype Policy =
    | MaxAttempts(maxAttempts: int)
    | Never
    | Always
    | Timeout(timeout: int)
    | Predicate(test: Failure -> bool)
    | BinaryClassifier(classifier: BinaryRule)
    | Simple(maxAttempts: int, maxAttemptsSupplier: Option<int>, retryable: BinaryRule, recoverable: BinaryRule)
    | Composite(policies: seq<Policy>, optimistic: bool)
    | ExceptionClassifier(selector: PolicySelector, policies: seq<Policy>)
    | CircuitBreaker(delegate: Policy, resetTimeout: int, openTimeout: int,
                     resetTimeoutSupplier: Option<int>, openTimeoutSupplier: Option<int>)

  /** The fields a context subclass adds to `RetryContextSupport`. */
  datatype Ext =
    | Support
    | NeverCtx(finished: bool)
    | TimeoutCtx(start: int, timeout: int)
    | CompositeCtx(children: seq<CtxState>)
    | ClassifierCtx(selected: Option<nat>, contexts: map<nat, CtxState>)
    | CircuitCtx(inner: CtxState, start: int, timeout: int, openWindow: int, shortCount: nat)

  /** A retry context: attempt count, last error, the exhausted-only flag,
    * the attributes and the subclass fields. */
  datatype CtxState = CtxState(count: nat, last: Option<Failure>, exhaustedOnly: bool,
                               attrs: map<string, Attr>, ext: Ext)

  /** An answer of `canRetry` or `isOpen` with the context after it. */
  datatype Decision = Decision(answer: bool, state: CtxState)

  /** `new RetryContextSupport(parent)` with the subclass fields `ext`. */
  function Fresh(ext: Ext): (s: CtxState)
    ensures s.count == 0 && s.last.None? && !s.exhaustedOnly && s.attrs == map[] && s.ext == ext
  {
    CtxState(0, None, false, map[], ext)
  }

  /** `RetryContextSupport.registerThrowable`: the error becomes the last
    * one, and a non-null error adds one to the count. */
  function Registered(s: CtxState, t: Option<Failure>): (r: CtxState)
    ensures r.last == t
    ensures t.Some? ==> r.count == s.count + 1
    ensures t.None? ==> r.count == s.count
    ensures r.exhaustedOnly == s.exhaustedOnly && r.attrs == s.attrs && r.ext == s.ext
  {
    s.(last := t, count := if t.Some? then s.count + 1 else s.count)
  }

  /** `getRetryCount`: a circuit-breaker context reports its delegate's. */
  function RetryCount(s: CtxState): nat
    decreases s
  {
    if s.ext.CircuitCtx? then RetryCount(s.ext.inner) else s.count
  }

  // ---------------------------------------------------------------------
  // Well-formedness: selector indices name a policy, and a context has
  // the shape of the policy that opened it.
  // ---------------------------------------------------------------------

  predicate SelectorFits(sel: PolicySelector, n: nat) {
    match sel
    case Constant(i) => i < n
    case BySubclass(m, d) => d < n && forall t :: t in m ==> m[t] < n
  }

  predicate WellFormed(p: Policy)
    decreases p
  {
    match p
    case Composite(ps, _) => forall i :: 0 <= i < |ps| ==> WellFormed(ps[i])
    case ExceptionClassifier(sel, ps) => SelectorFits(sel, |ps|) && forall i :: 0 <= i < |ps| ==> WellFormed(ps[i])
    case CircuitBreaker(d, _, _, _, _) => WellFormed(d)
    case _ => true
  }

  /** `s` is a context that `p` opened (or evolved from one). */
  predicate Fits(p: Policy, s: CtxState)
    decreases p
  {
    match p
    case Never => s.ext.NeverCtx?
    case Always => s.ext.NeverCtx?
    case Timeout(_) => s.ext.TimeoutCtx?
    case Composite(ps, _) =>
      s.ext.CompositeCtx? && |s.ext.children| == |ps| &&
      forall i :: 0 <= i < |ps| ==> Fits(ps[i], s.ext.children[i])
    case ExceptionClassifier(_, ps) =>
      s.ext.ClassifierCtx? &&
      (s.ext.selected.Some? ==> s.ext.selected.value in s.ext.contexts) &&
      forall k :: k in s.ext.contexts ==> k < |ps| && Fits(ps[k], s.ext.contexts[k])
    case CircuitBreaker(d, _, _, _, _) => s.ext.CircuitCtx? && Fits(d, s.ext.inner)
    case _ => s.ext.Support?
  }

  /** The index `classifier.classify(t)` answers. */
  function Select(sel: PolicySelector, n: nat, t: Option<Failure>): (k: nat)
    requires SelectorFits(sel, n)
    ensures k < n
    ensures sel.Constant? ==> k == sel.index
    ensures sel.BySubclass? ==> k == Classified(sel.typeMap, sel.defaultIndex, t).value
  {
    match sel
    case Constant(i) => i
    case BySubclass(m, d) =>
      ClassifyProps.ClassifiedIsMappedOrDefault(m, d, t);
      Classified(m, d, t).value
  }

  // ---------------------------------------------------------------------
  // getMaxAttempts
  // ---------------------------------------------------------------------

  function MaxAttemptsOf(p: Policy): int
    decreases p, 1
  {
    match p
    case MaxAttempts(m) => m
    case Simple(m, supplier, _, _) => if supplier.Some? then supplier.value else m
    case Composite(ps, _) => DeclaredMinimum(ps, 0)
    case _ => NO_MAXIMUM_ATTEMPTS_SET
  }

  /** The smallest `getMaxAttempts` of `ps[i..]` other than -1, or -1 when
    * no policy there declares one. */
  function DeclaredMinimum(ps: seq<Policy>, i: nat): (r: int)
    requires i <= |ps|
    ensures r == NO_MAXIMUM_ATTEMPTS_SET <==>
              forall j :: i <= j < |ps| ==> MaxAttemptsOf(ps[j]) == NO_MAXIMUM_ATTEMPTS_SET
    ensures r != NO_MAXIMUM_ATTEMPTS_SET ==> exists j :: i <= j < |ps| && MaxAttemptsOf(ps[j]) == r
    ensures forall j :: i <= j < |ps| && MaxAttemptsOf(ps[j]) != NO_MAXIMUM_ATTEMPTS_SET ==>
              r <= MaxAttemptsOf(ps[j])
    decreases ps, 0, |ps| - i
  {
    if i == |ps| then NO_MAXIMUM_ATTEMPTS_SET
    else
      var here := MaxAttemptsOf(ps[i]);
      var rest := DeclaredMinimum(ps, i + 1);
      if here == NO_MAXIMUM_ATTEMPTS_SET then rest
      else if rest == NO_MAXIMUM_ATTEMPTS_SET || here <= rest then here
      else rest
  }

  // ---------------------------------------------------------------------
  // open
  // ---------------------------------------------------------------------

  /** `open(parent)`. The parent is the top-level context's and is not
    * stored in nested contexts. */
  function Open(p: Policy, now: int): (s: CtxState)
    requires WellFormed(p)
    ensures Fits(p, s)
    ensures s.count == 0 && s.last.None? && !s.exhaustedOnly
    decreases p, 1
  {
    match p
    case Never => Fresh(NeverCtx(false))
    case Always => Fresh(NeverCtx(false))
    case Timeout(timeout) => Fresh(TimeoutCtx(now, timeout))
    case Composite(ps, _) => Fresh(CompositeCtx(OpenFrom(ps, 0, now)))
    case ExceptionClassifier(_, _) => Fresh(ClassifierCtx(None, map[]))
    case CircuitBreaker(d, reset, open, resetSupplier, openSupplier) =>
      var timeout := if resetSupplier.Some? then resetSupplier.value else reset;
      var window := if openSupplier.Some? then openSupplier.value else open;
      var s := Fresh(CircuitCtx(Open(d, now), now, timeout, window, 0));
      s.(attrs := map[CIRCUIT_SHORT_COUNT := Number(0), GLOBAL_STATE := Flag(true)])
    case _ => Fresh(Support)
  }

  /** The children `ps[i..]` opened in order. */
  function OpenFrom(ps: seq<Policy>, i: nat, now: int): (cs: seq<CtxState>)
    requires i <= |ps| && forall j :: 0 <= j < |ps| ==> WellFormed(ps[j])
    ensures |cs| == |ps| - i
    ensures forall j :: 0 <= j < |cs| ==> Fits(ps[i + j], cs[j]) && cs[j] == Open(ps[i + j], now)
    decreases ps, 0, |ps| - i
  {
    if i == |ps| then [] else [Open(ps[i], now)] + OpenFrom(ps, i + 1, now)
  }

  // ---------------------------------------------------------------------
  // canRetry
  // ---------------------------------------------------------------------

  /** The fields `canRetry` never touches. */
  predicate SameRecord(s: CtxState, r: CtxState) {
    r.count == s.count && r.last == s.last && r.exhaustedOnly == s.exhaustedOnly
  }

  function CanRetry(p: Policy, s: CtxState, now: int): (d: Decision)
    requires WellFormed(p) && Fits(p, s)
    ensures Fits(p, d.state) && SameRecord(s, d.state)
    decreases p, 1
  {
    match p
    case MaxAttempts(m) => Decision(RetryCount(s) < m, s)
    case Never => Decision(!s.ext.finished, s)
    case Always => Decision(true, s)
    case Timeout(_) => Decision(now - s.ext.start <= s.ext.timeout, s)
    case Predicate(test) => Decision(s.last.None? || test(s.last.value), s)
    case BinaryClassifier(rule) => Decision(s.last.None? || BinaryClassify(rule, s.last), s)
    case Simple(_, _, retryable, recoverable) =>
      var retry := s.last.None? || (BinaryClassify(retryable, s.last) && RetryCount(s) < MaxAttemptsOf(p));
      if !retry && s.last.Some? && !BinaryClassify(recoverable, s.last) then
        Decision(retry, s.(attrs := s.attrs[NO_RECOVERY := Flag(true)]))
      else
        Decision(retry, s.(attrs := s.attrs - {NO_RECOVERY}))
    case Composite(ps, optimistic) =>
      var v := CompositeFrom(ps, optimistic, s.ext.children, 0, now);
      Decision(v.answer, s.(ext := CompositeCtx(v.states)))
    case ExceptionClassifier(_, ps) =>
      if s.ext.selected.None? then Decision(true, s)
      else
        var k := s.ext.selected.value;
        var child := CanRetry(ps[k], s.ext.contexts[k], now);
        Decision(child.answer, s.(ext := s.ext.(contexts := s.ext.contexts[k := child.state])))
    case CircuitBreaker(delegate, _, _, _, _) =>
      var open := IsOpen(p, s, now);
      if open.answer then Decision(false, IncrementShortCircuitCount(open.state))
      else
        var closed := ResetCircuit(open.state);
        var inner := CanRetry(delegate, closed.ext.inner, now);
        Decision(inner.answer, closed.(ext := closed.ext.(inner := inner.state)))
  }

  /** Several answers of `canRetry` with the children after them. */
  datatype Decisions = Decisions(answer: bool, states: seq<CtxState>)

  /** The composite loop from child `i`: optimistic stops at the first
    * child that allows a retry; pessimistic asks every child. */
  function CompositeFrom(ps: seq<Policy>, optimistic: bool, cs: seq<CtxState>, i: nat, now: int): (v: Decisions)
    requires i <= |ps| == |cs|
    requires forall j :: 0 <= j < |ps| ==> WellFormed(ps[j]) && Fits(ps[j], cs[j])
    ensures |v.states| == |ps|
    ensures forall j :: 0 <= j < |ps| ==> Fits(ps[j], v.states[j]) && SameRecord(cs[j], v.states[j])
    ensures forall j :: 0 <= j < i ==> v.states[j] == cs[j]
    decreases ps, 0, |ps| - i
  {
    if i == |ps| then Decisions(!optimistic, cs)
    else
      var d := CanRetry(ps[i], cs[i], now);
      var next := cs[i := d.state];
      if optimistic && d.answer then Decisions(true, next)
      else
        var rest := CompositeFrom(ps, optimistic, next, i + 1, now);
        if optimistic then rest else Decisions(d.answer && rest.answer, rest.states)
  }

  /** The loop of `CompositeRetryPolicy.canRetry`: optimistic returns
    * true at the first child that allows a retry, pessimistic asks every
    * child and clears `retryable` at each refusal. Each child's context is
    * updated where it stands. */
  method CompositeCanRetry(ps: seq<Policy>, optimistic: bool, cs: seq<CtxState>, now: int)
    returns (retryable: bool, states: seq<CtxState>)
    requires |ps| == |cs|
    requires forall j :: 0 <= j < |ps| ==> WellFormed(ps[j]) && Fits(ps[j], cs[j])
    ensures Decisions(retryable, states) == CompositeFrom(ps, optimistic, cs, 0, now)
  {
    retryable := true;
    states := cs;
    if optimistic {
      retryable := false;
    }
    var i := 0;
    while i < |ps|
      invariant 0 <= i <= |ps| && |states| == |ps|
      invariant forall j :: 0 <= j < |ps| ==> Fits(ps[j], states[j])
      invariant optimistic ==> !retryable && CompositeFrom(ps, true, states, i, now) == CompositeFrom(ps, true, cs, 0, now)
      invariant !optimistic ==>
                  Decisions(retryable && CompositeFrom(ps, false, states, i, now).answer,
                            CompositeFrom(ps, false, states, i, now).states) == CompositeFrom(ps, false, cs, 0, now)
    {
      var d := CanRetry(ps[i], states[i], now);
      states := states[i := d.state];
      if optimistic && d.answer {
        return true, states;
      }
      if !d.answer {
        retryable := false;
      }
      i := i + 1;
    }
  }

  // ---------------------------------------------------------------------
  // The circuit-breaker context
  // ---------------------------------------------------------------------

  /** `CircuitBreakerRetryContext.reset` */
  function ResetCircuit(s: CtxState): (r: CtxState)
    requires s.ext.CircuitCtx?
    ensures r.ext == s.ext.(shortCount := 0)
    ensures r.attrs == s.attrs[CIRCUIT_SHORT_COUNT := Number(0)]
    ensures SameRecord(s, r)
  {
    s.(ext := s.ext.(shortCount := 0), attrs := s.attrs[CIRCUIT_SHORT_COUNT := Number(0)])
  }

  /** `CircuitBreakerRetryContext.incrementShortCircuitCount` */
  function IncrementShortCircuitCount(s: CtxState): (r: CtxState)
    requires s.ext.CircuitCtx?
    ensures r.ext == s.ext.(shortCount := s.ext.shortCount + 1)
    ensures r.attrs == s.attrs[CIRCUIT_SHORT_COUNT := Number(s.ext.shortCount + 1)]
    ensures SameRecord(s, r)
  {
    var n := s.ext.shortCount + 1;
    s.(ext := s.ext.(shortCount := n), attrs := s.attrs[CIRCUIT_SHORT_COUNT := Number(n)])
  }

  /** `createDelegateContext`: a fresh delegate context, and a reset. */
  function WithNewDelegate(d: Policy, s: CtxState, now: int): (r: CtxState)
    requires WellFormed(d) && s.ext.CircuitCtx?
    ensures r.ext.CircuitCtx? && Fits(d, r.ext.inner) && r.ext.inner == Open(d, now)
    ensures r.ext.start == s.ext.start && r.ext.timeout == s.ext.timeout && r.ext.openWindow == s.ext.openWindow
    ensures r.ext.shortCount == 0 && SameRecord(s, r)
    ensures r.attrs == s.attrs[CIRCUIT_SHORT_COUNT := Number(0)]
    decreases d, 2
  {
    ResetCircuit(s.(ext := s.ext.(inner := Open(d, now))))
  }

  /** The circuit context with `start` set to `now`. */
  function Restarted(c: Ext, now: int): (r: Ext)
    requires c.CircuitCtx?
    ensures r.CircuitCtx? && r.start == now && r.inner == c.inner && r.timeout == c.timeout
    ensures r.openWindow == c.openWindow && r.shortCount == c.shortCount
  {
    CircuitCtx(c.inner, now, c.timeout, c.openWindow, c.shortCount)
  }

  /** `CircuitBreakerRetryContext.isOpen`: whether the circuit is open. */
  function IsOpen(p: Policy, s: CtxState, now: int): (d: Decision)
    requires p.CircuitBreaker? && WellFormed(p) && Fits(p, s)
    ensures Fits(p, d.state) && SameRecord(s, d.state)
    ensures CIRCUIT_OPEN in d.state.attrs && d.state.attrs[CIRCUIT_OPEN] == Flag(d.answer)
    ensures s.attrs.Keys <= d.state.attrs.Keys
    decreases p, 0
  {
    var c := s.ext;
    var time := now - c.start;
    var inner := CanRetry(p.delegate, c.inner, now);
    if inner.answer then
      var s1 :=
        if time > c.openWindow then WithNewDelegate(p.delegate, s.(ext := Restarted(c, now)), now)
        else s.(ext := c.(inner := inner.state));
      Decision(false, s1.(attrs := s1.attrs[CIRCUIT_OPEN := Flag(false)]))
    else if time > c.timeout then
      var s1 := WithNewDelegate(p.delegate, s.(ext := Restarted(c, now)), now);
      var again := CanRetry(p.delegate, s1.ext.inner, now);
      var s2 := s1.(ext := s1.ext.(inner := again.state));
      Decision(!again.answer, s2.(attrs := s2.attrs[CIRCUIT_OPEN := Flag(!again.answer)]))
    else
      var s1 := s.(ext := c.(inner := inner.state));
      if time < c.openWindow && !IsTrue(s1.attrs, CIRCUIT_OPEN) then
        Decision(true, s1.(attrs := s1.attrs[CIRCUIT_OPEN := Flag(true)], ext := Restarted(s1.ext, now)))
      else if time < c.openWindow then
        Decision(true, s1)
      else
        Decision(true, s1.(attrs := s1.attrs[CIRCUIT_OPEN := Flag(true)]))
  }

  // ---------------------------------------------------------------------
  // registerThrowable
  // ---------------------------------------------------------------------

  function Register(p: Policy, s: CtxState, t: Option<Failure>, now: int): (r: CtxState)
    requires WellFormed(p) && Fits(p, s)
    ensures Fits(p, r)
    ensures r.last == t && r.count == (if t.Some? then s.count + 1 else s.count)
    ensures r.exhaustedOnly == s.exhaustedOnly && r.attrs == s.attrs
    decreases p
  {
    match p
    case Never => Registered(s.(ext := NeverCtx(true)), t)
    case Always => Registered(s.(ext := NeverCtx(true)), t)
    case Composite(ps, _) =>
      Registered(s.(ext := CompositeCtx(RegisterFrom(ps, s.ext.children, 0, t, now))), t)
    case ExceptionClassifier(sel, ps) =>
      var k := Select(sel, |ps|, t);
      var child := if k in s.ext.contexts then s.ext.contexts[k] else Open(ps[k], now);
      var contexts := s.ext.contexts[k := Register(ps[k], child, t, now)];
      Registered(s.(ext := ClassifierCtx(Some(k), contexts)), t)
    case CircuitBreaker(d, _, _, _, _) =>
      var inner := Register(d, s.ext.inner, t, now);
      Registered(s.(ext := s.ext.(inner := inner)), t)
    case _ => Registered(s, t)
  }

  /** The children `cs[i..]` each registered with `t`, in order. */
  function RegisterFrom(ps: seq<Policy>, cs: seq<CtxState>, i: nat, t: Option<Failure>, now: int): (r: seq<CtxState>)
    requires i <= |ps| == |cs|
    requires forall j :: 0 <= j < |ps| ==> WellFormed(ps[j]) && Fits(ps[j], cs[j])
    ensures |r| == |ps| - i
    ensures forall j :: 0 <= j < |r| ==> Fits(ps[i + j], r[j]) && r[j] == Register(ps[i + j], cs[i + j], t, now)
    decreases ps, 0, |ps| - i
  {
    if i == |ps| then [] else [Register(ps[i], cs[i], t, now)] + RegisterFrom(ps, cs, i + 1, t, now)
  }

  /** The failures `errs` registered one after another. */
  function RegisterAll(p: Policy, s: CtxState, errs: seq<Failure>, now: int): (r: CtxState)
    requires WellFormed(p) && Fits(p, s)
    ensures Fits(p, r)
    ensures r.count == s.count + |errs|
    ensures |errs| > 0 ==> r.last == Some(errs[|errs| - 1])
    ensures |errs| == 0 ==> r == s
    ensures r.exhaustedOnly == s.exhaustedOnly && r.attrs == s.attrs
    decreases |errs|
  {
    if |errs| == 0 then s
    else RegisterAll(p, Register(p, s, Some(errs[0]), now), errs[1..], now)
  }

  // ---------------------------------------------------------------------
  // Constructors and setters with rules of their own
  // ---------------------------------------------------------------------

  /** `new SimpleRetryPolicy()`: three attempts, `Exception` retryable,
    * everything recoverable (an empty rule with default true that walks
    * causes). */
  function DefaultSimple(): Policy {
    Simple(DEFAULT_MAX_ATTEMPTS, None, DefaultRule(), BinaryRule(map[], true, true))
  }

  /** `new SimpleRetryPolicy(maxAttempts, retryableExceptions, traverseCauses, defaultValue)` */
  function SimpleWithMap(maxAttempts: int, retryable: map<TypeId, bool>, traverseCauses: bool, defaultValue: bool): Policy {
    Simple(maxAttempts, None, BinaryRule(retryable, defaultValue, traverseCauses), BinaryRule(map[], true, true))
  }

  /** `SimpleRetryPolicy.setNotRecoverable`: exactly the listed classes are
    * not recoverable, and causes are walked. */
  function SetNotRecoverable(p: Policy, noRecovery: seq<TypeId>): (q: Policy)
    requires p.Simple?
    ensures q.Simple? && q.maxAttempts == p.maxAttempts && q.retryable == p.retryable
    ensures q.maxAttemptsSupplier == p.maxAttemptsSupplier
    ensures q.recoverable.defaultValue && q.recoverable.traverseCauses
    ensures forall t :: t in q.recoverable.classified <==> t in noRecovery
    ensures forall t :: t in q.recoverable.classified ==> !q.recoverable.classified[t]
  {
    p.(recoverable := ListedRule(noRecovery, false).(traverseCauses := true))
  }

  /** `new PredicateRetryPolicy(predicate)`: a null predicate is refused. */
  function NewPredicatePolicy(test: Option<Failure -> bool>): (r: Option<Policy>)
    ensures r.None? <==> test.None?
    ensures r.Some? ==> r.value.Predicate?
  {
    if test.None? then None else Some(Predicate(test.value))
  }

  /** `new ExceptionClassifierRetryPolicy()`: every error selects a
    * never-retry policy. */
  function DefaultExceptionClassifier(): (p: Policy)
    ensures WellFormed(p)
  {
    ExceptionClassifier(Constant(0), [Never])
  }

  /** `setPolicyMap`: a subclass classifier over `policies` whose default is
    * a never-retry policy appended after them. */
  function WithPolicyMap(typeMap: map<TypeId, nat>, policies: seq<Policy>): (p: Policy)
    requires forall t :: t in typeMap ==> typeMap[t] < |policies|
    requires forall i :: 0 <= i < |policies| ==> WellFormed(policies[i])
    ensures WellFormed(p) && p.ExceptionClassifier?
    ensures p.selector.BySubclass? && p.policies[p.selector.defaultIndex].Never?
  {
    ExceptionClassifier(BySubclass(typeMap, |policies|), policies + [Never])
  }

  /** `new CircuitBreakerRetryPolicy(delegate)` */
  function NewCircuitBreaker(delegate: Policy): Policy {
    CircuitBreaker(delegate, DEFAULT_RESET_TIMEOUT, DEFAULT_OPEN_TIMEOUT, None, None)
  }

  // ---------------------------------------------------------------------
  // close
  // ---------------------------------------------------------------------

  /** The first error among the outcomes of closing the children in order. */
  function FirstThrown(outcomes: seq<Option<Failure>>): (r: Option<Failure>)
    ensures r.None? <==> forall i :: 0 <= i < |outcomes| ==> outcomes[i].None?
    ensures r.Some? ==> exists i :: 0 <= i < |outcomes| && outcomes[i] == r &&
                                    forall j :: 0 <= j < i ==> outcomes[j].None?
  {
    if |outcomes| == 0 then None
    else if outcomes[0].Some? then outcomes[0]
    else
      var r := FirstThrown(outcomes[1..]);
      assert r.Some? ==> exists i :: 0 <= i < |outcomes| && outcomes[i] == r &&
                                     forall j :: 0 <= j < i ==> outcomes[j].None? by {
        if r.Some? {
          var i :| 0 <= i < |outcomes[1..]| && outcomes[1..][i] == r &&
                   forall j :: 0 <= j < i ==> outcomes[1..][j].None?;
          assert outcomes[i + 1] == r;
        }
      }
      r
  }

  /** `CompositeRetryPolicy.close`: every child is closed even when one
    * throws, and the first `RuntimeException` is rethrown at the end.
    * `outcomes[i]` is what closing child `i` throws, if anything; the
    * returned list records which children were closed. */
  method CloseChildren(outcomes: seq<Option<Failure>>) returns (closed: seq<nat>, thrown: Option<Failure>)
    ensures closed == seq(|outcomes|, i => i)
    ensures thrown == FirstThrown(outcomes)
  {
    closed := [];
    thrown := None;
    var i := 0;
    while i < |outcomes|
      invariant 0 <= i <= |outcomes|
      invariant closed == seq(i, j => j)
      invariant thrown == FirstThrown(outcomes[..i])
    {
      closed := closed + [i];
      if thrown.None? && outcomes[i].Some? {
        thrown := outcomes[i];
      }
      FirstThrownExtends(outcomes[..i], outcomes[i]);
      assert outcomes[..i + 1] == outcomes[..i] + [outcomes[i]];
      i := i + 1;
    }
    assert outcomes[..i] == outcomes;
  }

  lemma {:induction false} FirstThrownExtends(prefix: seq<Option<Failure>>, next: Option<Failure>)
    ensures FirstThrown(prefix + [next]) == if FirstThrown(prefix).Some? then FirstThrown(prefix) else next
  {
    if |prefix| > 0 {
      assert (prefix + [next])[1..] == prefix[1..] + [next];
      if prefix[0].None? {
        FirstThrownExtends(prefix[1..], next);
      }
    }
  }
}
