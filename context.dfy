/** The top-level retry context (`RetryContextSupport` and the subclass a
  * policy opens) as an object whose fields are updated in place, and the
  * retry state (`DefaultRetryState`) of a stateful run. */
module Contexts {
  import opened Types
  import opened Policies
  import opened BackOffs

  class RetryContext {
    const parent: RetryContext?
    var count: nat
    var lastException: Option<Failure>
    var terminate: bool
    var attributes: map<string, Attr>
    /** The fields of the context subclass the policy opened. */
    var ext: Ext
    /** The "backOffContext" attribute, which holds an object, as a field
      * of its own. */
    var backOffContext: ExponentialBackOffContext?

    /** The context as a value. */
    function State(): CtxState
      reads this
    {
      CtxState(count, lastException, terminate, attributes, ext)
    }

    /** `new RetryContextSupport(parent)` */
    constructor (parent: RetryContext?)
      ensures State() == Fresh(Support) && this.parent == parent && backOffContext == null
    {
      this.parent := parent;
      count := 0;
      lastException := None;
      terminate := false;
      attributes := map[];
      ext := Support;
      backOffContext := null;
    }

    /** `policy.open(parent)` */
    constructor Opened(p: Policy, parent: RetryContext?, now: int)
      requires WellFormed(p)
      ensures State() == Open(p, now) && Fits(p, State())
      ensures this.parent == parent && backOffContext == null
    {
      var s := Open(p, now);
      this.parent := parent;
      count := s.count;
      lastException := s.last;
      terminate := s.exhaustedOnly;
      attributes := s.attrs;
      ext := s.ext;
      backOffContext := null;
    }

    /** `registerThrowable`: the error becomes the last one; a non-null
      * error adds one to the count. */
    method RegisterThrowable(t: Option<Failure>)
      modifies this
      ensures State() == Registered(old(State()), t) && backOffContext == old(backOffContext)
    {
      lastException := t;
      if t.Some? {
        count := count + 1;
      }
    }

    method SetExhaustedOnly()
      modifies this
      ensures State() == old(State()).(exhaustedOnly := true) && backOffContext == old(backOffContext)
    {
      terminate := true;
    }

    predicate IsExhaustedOnly()
      reads this
    {
      terminate
    }

    /** `getRetryCount` (a circuit-breaker context reports its delegate's). */
    function GetRetryCount(): nat
      reads this
    {
      RetryCount(State())
    }

    method SetAttribute(name: string, value: Attr)
      modifies this
      ensures State() == old(State()).(attrs := old(attributes)[name := value])
      ensures backOffContext == old(backOffContext)
    {
      attributes := attributes[name := value];
    }

    method RemoveAttribute(name: string)
      modifies this
      ensures State() == old(State()).(attrs := old(attributes) - {name})
      ensures backOffContext == old(backOffContext)
    {
      attributes := attributes - {name};
    }

    predicate HasAttribute(name: string)
      reads this
    {
      name in attributes
    }

    method SetBackOffContext(c: ExponentialBackOffContext?)
      modifies this
      ensures State() == old(State()) && backOffContext == c
    {
      backOffContext := c;
    }

    /** `policy.canRetry(this)`; the composite policy runs its loop over
      * the children. */
    method CanRetryUnder(p: Policy, now: int) returns (b: bool)
      requires WellFormed(p) && Fits(p, State())
      modifies this
      ensures Decision(b, State()) == CanRetry(p, old(State()), now)
      ensures backOffContext == old(backOffContext)
    {
      if p.Composite? {
        var states;
        b, states := CompositeCanRetry(p.policies, p.optimistic, ext.children, now);
        ext := CompositeCtx(states);
      } else {
        var d := CanRetry(p, State(), now);
        b := d.answer;
        count, lastException, terminate, attributes, ext := d.state.count, d.state.last, d.state.exhaustedOnly, d.state.attrs, d.state.ext;
      }
    }

    /** `policy.registerThrowable(this, t)` */
    method RegisterUnder(p: Policy, t: Option<Failure>, now: int)
      requires WellFormed(p) && Fits(p, State())
      modifies this
      ensures State() == Register(p, old(State()), t, now) && Fits(p, State())
      ensures backOffContext == old(backOffContext)
    {
      var r := Register(p, State(), t, now);
      count, lastException, terminate, attributes, ext := r.count, r.last, r.exhaustedOnly, r.attrs, r.ext;
    }
  }

  /** `DefaultRetryState`: an immutable key, refresh flag and optional
    * rollback classifier. A key is an integer or null. */
  datatype RetryState = RetryState(key: Option<int>, forceRefresh: bool, rollbackClassifier: Option<Failure -> bool>)

  /** `new DefaultRetryState(key)` */
  function KeyedState(key: Option<int>): (s: RetryState)
    ensures s.key == key && !s.forceRefresh && s.rollbackClassifier.None?
  {
    RetryState(key, false, None)
  }

  /** `new DefaultRetryState(key, rollbackClassifier)` */
  function StateWithRollback(key: Option<int>, classifier: Option<Failure -> bool>): (s: RetryState)
    ensures s.key == key && !s.forceRefresh && s.rollbackClassifier == classifier
  {
    RetryState(key, false, classifier)
  }

  /** `new DefaultRetryState(key, forceRefresh)` */
  function RefreshingState(key: Option<int>, forceRefresh: bool): (s: RetryState)
    ensures s.key == key && s.forceRefresh == forceRefresh && s.rollbackClassifier.None?
  {
    RetryState(key, forceRefresh, None)
  }

  /** `rollbackFor`: true without a classifier, the classifier's verdict
    * otherwise. */
  function RollbackFor(s: RetryState, e: Failure): bool {
    s.rollbackClassifier.None? || s.rollbackClassifier.value(e)
  }

  // ---------------------------------------------------------------------
  // Properties
  // ---------------------------------------------------------------------

  /** The count never decreases and the exhausted-only flag, once set, is
    * never cleared: neither `canRetry` nor `registerThrowable` of any
    * policy undoes them. */
  lemma CountAndExhaustedOnlyPersist(p: Policy, s: CtxState, t: Option<Failure>, now: int)
    requires WellFormed(p) && Fits(p, s)
    ensures CanRetry(p, s, now).state.count == s.count && Register(p, s, t, now).count >= s.count
    ensures s.exhaustedOnly ==> CanRetry(p, s, now).state.exhaustedOnly && Register(p, s, t, now).exhaustedOnly
  {
  }

  /** Without a classifier every error rolls back; with one, exactly those
    * it accepts. */
  lemma RollbackRule(key: Option<int>, classifier: Failure -> bool, e: Failure)
    ensures RollbackFor(KeyedState(key), e)
    ensures RollbackFor(StateWithRollback(key, Some(classifier)), e) == classifier(e)
  {
  }
}
