/** Retry statistics: the five counters of `DefaultRetryStatistics`, the
  * per-name repository `DefaultStatisticsRepository`, and the
  * `StatisticsListener` that counts what a closed or failed context
  * shows. */
module Stats {
  import opened Types
  import opened Contexts

  /** The five counters. */
  datatype Counter = Started | Complete | Recovery | Error | Abort

  datatype Counters = Counters(started: nat, complete: nat, recovery: nat, error: nat, abort: nat)

  const Zero := Counters(0, 0, 0, 0, 0)

  /** The getter of one counter. */
  function Get(c: Counters, k: Counter): nat {
    match k
    case Started => c.started
    case Complete => c.complete
    case Recovery => c.recovery
    case Error => c.error
    case Abort => c.abort
  }

  /** One `incrementX`: its own counter goes up by one, no other moves. */
  function Bump(c: Counters, k: Counter): (r: Counters)
    ensures forall j :: Get(r, j) == Get(c, j) + (if j == k then 1 else 0)
  {
    match k
    case Started => c.(started := c.started + 1)
    case Complete => c.(complete := c.complete + 1)
    case Recovery => c.(recovery := c.recovery + 1)
    case Error => c.(error := c.error + 1)
    case Abort => c.(abort := c.abort + 1)
  }

  /** The counters after the increments `ks`, in order. */
  function Tally(c: Counters, ks: seq<Counter>): Counters
    decreases |ks|
  {
    if ks == [] then c else Tally(Bump(c, ks[0]), ks[1..])
  }

  /** After any increments, each counter has grown by the number of its
    * own increments, so no counter ever decreases. */
  lemma {:induction false} TallyCounts(c: Counters, ks: seq<Counter>, k: Counter)
    ensures Get(Tally(c, ks), k) == Get(c, k) + multiset(ks)[k]
    ensures Get(Tally(c, ks), k) >= Get(c, k)
    decreases |ks|
  {
    if ks != [] {
      TallyCounts(Bump(c, ks[0]), ks[1..], k);
      assert ks == [ks[0]] + ks[1..];
      assert multiset(ks) == multiset{ks[0]} + multiset(ks[1..]);
    }
  }

  /** Increments made in two runs add up to the increments made in one. */
  lemma {:induction false} TallyAppend(c: Counters, a: seq<Counter>, b: seq<Counter>)
    ensures Tally(Tally(c, a), b) == Tally(c, a + b)
    decreases |a|
  {
    if a == [] {
      assert a + b == b;
    } else {
      TallyAppend(Bump(c, a[0]), a[1..], b);
      assert (a + b)[0] == a[0] && (a + b)[1..] == a[1..] + b;
    }
  }

  /** A statistics object as a value. */
  datatype StatsState = StatsState(name: Option<string>, counts: Counters, attributes: map<string, Attr>)

  /** `DefaultRetryStatistics`: a name, five counters and the attributes
    * of an `AttributeAccessorSupport`. */
  class DefaultRetryStatistics {
    var name: Option<string>
    var startedCount: nat
    var completeCount: nat
    var recoveryCount: nat
    var errorCount: nat
    var abortCount: nat
    var attributes: map<string, Attr>

    function Counts(): Counters
      reads this
    {
      Counters(startedCount, completeCount, recoveryCount, errorCount, abortCount)
    }

    function State(): StatsState
      reads this
    {
      StatsState(name, Counts(), attributes)
    }

    /** All five counters start at zero. */
    constructor (name: string)
      ensures State() == StatsState(Some(name), Zero, map[])
    {
      this.name := Some(name);
      startedCount := 0;
      completeCount := 0;
      recoveryCount := 0;
      errorCount := 0;
      abortCount := 0;
      attributes := map[];
    }

    /** The package-private constructor leaves the name null. */
    constructor Unnamed()
      ensures State() == StatsState(None, Zero, map[])
    {
      name := None;
      startedCount := 0;
      completeCount := 0;
      recoveryCount := 0;
      errorCount := 0;
      abortCount := 0;
      attributes := map[];
    }

    /** `getStartedCount` ... `getAbortCount` */
    function Count(k: Counter): (n: nat)
      reads this
      ensures n == Get(State().counts, k)
    {
      match k
      case Started => startedCount
      case Complete => completeCount
      case Recovery => recoveryCount
      case Error => errorCount
      case Abort => abortCount
    }

    method SetName(n: Option<string>)
      modifies this
      ensures State() == old(State()).(name := n)
    {
      name := n;
    }

    /** `incrementStartedCount` ... `incrementAbortCount` */
    method Increment(k: Counter)
      modifies this
      ensures State() == old(State()).(counts := Bump(old(Counts()), k))
    {
      match k
      case Started => startedCount := startedCount + 1;
      case Complete => completeCount := completeCount + 1;
      case Recovery => recoveryCount := recoveryCount + 1;
      case Error => errorCount := errorCount + 1;
      case Abort => abortCount := abortCount + 1;
    }

    /** `setAttribute` */
    method SetAttribute(key: string, value: Attr)
      modifies this
      ensures State() == old(State()).(attributes := old(attributes)[key := value])
    {
      attributes := attributes[key := value];
    }
  }

  /** The `RetryStatisticsFactory` a repository uses: the default one
    * (`DefaultRetryStatisticsFactory`) returns null; the other creates a
    * `DefaultRetryStatistics` of the given name. */
  datatype Factory = NullFactory | DefaultStatisticsFactory

  /** An entry on first use: named, all counters zero, no attributes. */
  function FirstUse(name: string): StatsState {
    StatsState(Some(name), Zero, map[])
  }

  /** The repository as values after the increments `ks` on `name`,
    * creating the entry first when there is none. */
  function Recorded(snap: map<string, StatsState>, name: string, ks: seq<Counter>): (r: map<string, StatsState>)
    ensures r.Keys == snap.Keys + {name}
  {
    var e := if name in snap then snap[name] else FirstUse(name);
    snap[name := e.(counts := Tally(e.counts, ks))]
  }

  /** Recording in two steps is recording once. */
  lemma RecordedTwice(snap: map<string, StatsState>, name: string, a: seq<Counter>, b: seq<Counter>)
    ensures Recorded(Recorded(snap, name, a), name, b) == Recorded(snap, name, a + b)
  {
    var e := if name in snap then snap[name] else FirstUse(name);
    TallyAppend(e.counts, a, b);
  }

  /** Creating the entry first changes nothing about what is recorded. */
  lemma RecordedAfterCreation(snap: map<string, StatsState>, name: string, ks: seq<Counter>)
    ensures Recorded(snap[name := if name in snap then snap[name] else FirstUse(name)], name, ks) == Recorded(snap, name, ks)
  {
  }

  /** `DefaultStatisticsRepository`: statistics by name, created lazily
    * by the factory. */
  class DefaultStatisticsRepository {
    var entries: map<string, DefaultRetryStatistics>
    var factory: Factory

    /** No statistics object is shared by two names. */
    ghost predicate Valid()
      reads this
    {
      forall n, m :: n in entries && m in entries && n != m ==> entries[n] != entries[m]
    }

    /** The repository as values. */
    function Snapshot(): map<string, StatsState>
      reads this, entries.Values
    {
      map n | n in entries :: entries[n].State()
    }

    /** A new repository is empty and uses the default factory. */
    constructor ()
      ensures Valid() && entries == map[] && factory == NullFactory
    {
      entries := map[];
      factory := NullFactory;
    }

    method SetRetryStatisticsFactory(f: Factory)
      modifies this
      ensures factory == f && entries == old(entries)
    {
      factory := f;
    }

    /** `findOne`: null for a name never added. */
    function FindOne(name: string): (s: DefaultRetryStatistics?)
      reads this
      ensures s == null <==> name !in entries
      ensures s != null ==> s == entries[name]
    {
      if name in entries then entries[name] else null
    }

    /** `findAll`: the statistics held now. */
    function FindAll(): (r: set<DefaultRetryStatistics>)
      reads this
      ensures forall n :: n in entries ==> entries[n] in r
      ensures forall s :: s in r ==> exists n :: n in entries && entries[n] == s
    {
      entries.Values
    }

    /** `getStatistics`: the entry of `name`, created by the factory on
      * first use. The default factory's null makes `putIfAbsent` raise a
      * `NullPointerException`. */
    method GetStatistics(name: string) returns (s: DefaultRetryStatistics?, error: Option<Failure>)
      requires Valid()
      modifies this
      ensures Valid() && factory == old(factory)
      ensures error.Some? <==> name !in old(entries) && factory.NullFactory?
      ensures error.Some? ==> error == Some(NullPointer()) && s == null && entries == old(entries)
      ensures error.None? ==> s != null && name in entries && s == entries[name]
      ensures error.None? && name in old(entries) ==> entries == old(entries)
      ensures error.None? && name !in old(entries) ==>
                fresh(s) && s.State() == FirstUse(name) && entries == old(entries)[name := s]
      ensures error.None? ==> Snapshot() == old(Snapshot())[name := if name in old(Snapshot()) then old(Snapshot())[name] else FirstUse(name)]
    {
      if name !in entries {
        match factory
        case NullFactory =>
          return null, Some(NullPointer());
        case DefaultStatisticsFactory =>
          var created := new DefaultRetryStatistics(name);
          entries := entries[name := created];
      }
      s := entries[name];
      error := None;
    }

    /** `addStarted` ... `addAbort`: the entry of `name`, created on first
      * use and never replaced, gains one in counter `k`; nothing else
      * changes. */
    method Add(name: string, k: Counter) returns (error: Option<Failure>)
      requires Valid()
      modifies this, entries.Values
      ensures Valid() && factory == old(factory)
      ensures entries == old(entries) ||
              (name !in old(entries) && name in entries && fresh(entries[name]) && entries == old(entries)[name := entries[name]])
      ensures error.Some? <==> name !in old(entries) && factory.NullFactory?
      ensures error.Some? ==> error == Some(NullPointer()) && entries == old(entries) && Snapshot() == old(Snapshot())
      ensures error.None? ==> Snapshot() == Recorded(old(Snapshot()), name, [k])
    {
      var s;
      s, error := GetStatistics(name);
      if error.Some? {
        return;
      }
      IncrementEntry(name, k);
      RecordedAfterCreation(old(Snapshot()), name, [k]);
    }

    /** The increment of one held entry. */
    method IncrementEntry(name: string, k: Counter)
      requires Valid() && name in entries
      modifies entries[name]
      ensures Snapshot() == Recorded(old(Snapshot()), name, [k])
    {
      var s := entries[name];
      s.Increment(k);
      forall m | m in entries && m != name
        ensures entries[m].State() == old(entries[m].State())
      {
        assert entries[m] != s;
      }
      assert [k][1..] == [];
      assert Tally(old(s.Counts()), [k]) == Bump(old(s.Counts()), k);
      assert old(Snapshot())[name] == old(s.State());
      assert Snapshot() == old(Snapshot())[name := s.State()];
    }
  }

  // ---------------------------------------------------------------------
  // The listener
  // ---------------------------------------------------------------------

  /** The `NAME` attribute, when the context has one. */
  function NameOf(attrs: map<string, Attr>): Option<string> {
    if NAME in attrs && attrs[NAME].Text? then Some(attrs[NAME].s) else None
  }

  /** What `close` counts, in order: a start unless the context is
    * exhausted (a global context always), then the outcome. */
  function CloseCounts(attrs: map<string, Attr>): seq<Counter> {
    (if EXHAUSTED !in attrs || GLOBAL_STATE in attrs then [Started] else []) +
    (if RECOVERED in attrs then [Recovery]
     else if EXHAUSTED in attrs then [Abort]
     else if CLOSED in attrs then [Complete]
     else [])
  }

  /** What `onError` counts, in order: a start for a stateful context,
    * then the error. */
  function ErrorCounts(attrs: map<string, Attr>): seq<Counter> {
    (if STATE_KEY in attrs then [Started] else []) + [Error]
  }

  /** The attributes after copying those of `keys` the context has. */
  function Carried(stats: map<string, Attr>, ctx: map<string, Attr>, keys: seq<string>): (r: map<string, Attr>)
    ensures forall k :: k in r <==> k in stats || (k in keys && k in ctx)
    ensures forall k :: k in keys && k in ctx ==> r[k] == ctx[k]
    ensures forall k :: k in stats && k !in keys ==> r[k] == stats[k]
    decreases |keys|
  {
    if keys == [] then stats
    else
      var a := Carried(stats, ctx, keys[..|keys| - 1]);
      var k := keys[|keys| - 1];
      assert forall j :: j in keys <==> j in keys[..|keys| - 1] || j == k;
      if k in ctx then a[k := ctx[k]] else a
  }

  /** The circuit attributes `close` copies. */
  const CIRCUIT_KEYS: seq<string> := [CIRCUIT_OPEN, CIRCUIT_SHORT_COUNT]

  /** The repository after `close` of a context named `name`. */
  function Closed(snap: map<string, StatsState>, name: string, attrs: map<string, Attr>): map<string, StatsState> {
    var r := Recorded(snap, name, CloseCounts(attrs));
    r[name := r[name].(attributes := Carried(r[name].attributes, attrs, CIRCUIT_KEYS))]
  }

  /** `close` counts a start exactly when the context is not exhausted or
    * is global, and at most one outcome: recovery before abort before
    * completion. It always counts something. */
  lemma CloseRules(attrs: map<string, Attr>)
    ensures Started in CloseCounts(attrs) <==> EXHAUSTED !in attrs || GLOBAL_STATE in attrs
    ensures Recovery in CloseCounts(attrs) <==> RECOVERED in attrs
    ensures Abort in CloseCounts(attrs) <==> RECOVERED !in attrs && EXHAUSTED in attrs
    ensures Complete in CloseCounts(attrs) <==> RECOVERED !in attrs && EXHAUSTED !in attrs && CLOSED in attrs
    ensures multiset(CloseCounts(attrs))[Recovery] + multiset(CloseCounts(attrs))[Abort] +
            multiset(CloseCounts(attrs))[Complete] <= 1
    ensures Error !in CloseCounts(attrs) && CloseCounts(attrs) != []
  {
    var start: seq<Counter> := if EXHAUSTED !in attrs || GLOBAL_STATE in attrs then [Started] else [];
    var outcome: seq<Counter> := if RECOVERED in attrs then [Recovery]
                                 else if EXHAUSTED in attrs then [Abort]
                                 else if CLOSED in attrs then [Complete]
                                 else [];
    assert CloseCounts(attrs) == start + outcome;
    assert multiset(start + outcome) == multiset(start) + multiset(outcome);
  }

  /** `onError` always counts the error, and a start exactly when the
    * context is stateful. */
  lemma ErrorRules(attrs: map<string, Attr>)
    ensures multiset(ErrorCounts(attrs))[Error] == 1
    ensures multiset(ErrorCounts(attrs))[Started] == if STATE_KEY in attrs then 1 else 0
    ensures forall k :: k != Error && k != Started ==> multiset(ErrorCounts(attrs))[k] == 0
  {
  }

  /** Each counter of the named entry after `close`: the rules above,
    * applied to the counters it had. */
  lemma CloseRaises(c: Counters, attrs: map<string, Attr>, k: Counter)
    ensures Get(Tally(c, CloseCounts(attrs)), k) == Get(c, k) +
              match k
              case Started => if EXHAUSTED !in attrs || GLOBAL_STATE in attrs then 1 else 0
              case Recovery => if RECOVERED in attrs then 1 else 0
              case Abort => if RECOVERED !in attrs && EXHAUSTED in attrs then 1 else 0
              case Complete => if RECOVERED !in attrs && EXHAUSTED !in attrs && CLOSED in attrs then 1 else 0
              case Error => 0
  {
    TallyCounts(c, CloseCounts(attrs), k);
  }

  /** `StatisticsListener` over its repository. */
  class StatisticsListener {
    const repository: DefaultStatisticsRepository

    constructor (repository: DefaultStatisticsRepository)
      ensures this.repository == repository
    {
      this.repository := repository;
    }

    /** `close`: nothing for an unnamed context; otherwise the counts of
      * `CloseCounts` and the circuit attributes the context has. A
      * repository that cannot create the entry raises on the first count. */
    method Close(context: RetryContext) returns (error: Option<Failure>)
      requires repository.Valid()
      modifies repository, repository.entries.Values
      ensures repository.Valid() && repository.factory == old(repository.factory)
      ensures var name := NameOf(context.attributes);
              if name.None? then
                error.None? && repository.entries == old(repository.entries) &&
                repository.Snapshot() == old(repository.Snapshot())
              else if name.value !in old(repository.entries) && repository.factory.NullFactory? then
                error == Some(NullPointer()) && repository.entries == old(repository.entries) &&
                repository.Snapshot() == old(repository.Snapshot())
              else
                error.None? && repository.Snapshot() == Closed(old(repository.Snapshot()), name.value, context.attributes)
    {
      var attrs := context.attributes;
      var name := NameOf(attrs);
      if name.None? {
        return None;
      }
      var n := name.value;
      CloseRules(attrs);
      error := CountAll(n, CloseCounts(attrs));
      if error.Some? {
        return;
      }
      CarryCircuit(n, attrs);
    }

    /** The statistics `findOne` returns after the counts receive the
      * circuit attributes the context has. */
    method CarryCircuit(n: string, attrs: map<string, Attr>)
      requires repository.Valid() && n in repository.entries
      modifies repository.entries[n]
      ensures var before := old(repository.Snapshot());
              repository.Snapshot() == before[n := before[n].(attributes := Carried(before[n].attributes, attrs, CIRCUIT_KEYS))]
    {
      var stats := repository.FindOne(n);
      assert old(repository.Snapshot())[n] == old(stats.State());
      CopyCircuit(stats, attrs);
      forall m | m in repository.entries && m != n
        ensures repository.entries[m].State() == old(repository.entries[m].State())
      {
        assert repository.entries[m] != stats;
      }
      assert repository.Snapshot() == old(repository.Snapshot())[n := stats.State()];
    }

    /** The `add` calls of `close` or `onError`, in order; the first one
      * raises when the entry cannot be created, and then no other runs. */
    method CountAll(n: string, ks: seq<Counter>) returns (error: Option<Failure>)
      requires repository.Valid() && 1 <= |ks| <= 2
      modifies repository, repository.entries.Values
      ensures repository.Valid() && repository.factory == old(repository.factory)
      ensures forall m :: m in old(repository.entries) ==> m in repository.entries && repository.entries[m] == old(repository.entries[m])
      ensures forall m :: m in repository.entries && m !in old(repository.entries) ==> fresh(repository.entries[m])
      ensures error.Some? <==> n !in old(repository.entries) && repository.factory.NullFactory?
      ensures error.Some? ==> error == Some(NullPointer()) && repository.entries == old(repository.entries) &&
                              repository.Snapshot() == old(repository.Snapshot())
      ensures error.None? ==> n in repository.entries &&
                              repository.Snapshot() == Recorded(old(repository.Snapshot()), n, ks)
    {
      error := repository.Add(n, ks[0]);
      if error.Some? {
        return;
      }
      if |ks| == 1 {
        assert ks == [ks[0]];
        return;
      }
      ghost var middle := repository.Snapshot();
      error := repository.Add(n, ks[1]);
      RecordedTwice(old(repository.Snapshot()), n, [ks[0]], [ks[1]]);
      assert [ks[0]] + [ks[1]] == ks;
    }

    /** The loop of `close` over the circuit keys: each one the context has
      * is set on the statistics. */
    method CopyCircuit(stats: DefaultRetryStatistics, attrs: map<string, Attr>)
      modifies stats
      ensures stats.State() == old(stats.State()).(attributes := Carried(old(stats.attributes), attrs, CIRCUIT_KEYS))
    {
      for i := 0 to |CIRCUIT_KEYS|
        invariant stats.State() == old(stats.State()).(attributes := Carried(old(stats.attributes), attrs, CIRCUIT_KEYS[..i]))
      {
        var key := CIRCUIT_KEYS[i];
        assert CIRCUIT_KEYS[..i + 1][..i] == CIRCUIT_KEYS[..i];
        if key in attrs {
          stats.SetAttribute(key, attrs[key]);
        }
      }
      assert CIRCUIT_KEYS[..|CIRCUIT_KEYS|] == CIRCUIT_KEYS;
    }

    /** `onError`: nothing for an unnamed context; otherwise the counts of
      * `ErrorCounts`. */
    method OnError(context: RetryContext) returns (error: Option<Failure>)
      requires repository.Valid()
      modifies repository, repository.entries.Values
      ensures repository.Valid() && repository.factory == old(repository.factory)
      ensures var name := NameOf(context.attributes);
              if name.None? then
                error.None? && repository.entries == old(repository.entries) &&
                repository.Snapshot() == old(repository.Snapshot())
              else if name.value !in old(repository.entries) && repository.factory.NullFactory? then
                error == Some(NullPointer()) && repository.entries == old(repository.entries) &&
                repository.Snapshot() == old(repository.Snapshot())
              else
                error.None? && repository.Snapshot() == Recorded(old(repository.Snapshot()), name.value, ErrorCounts(context.attributes))
    {
      var attrs := context.attributes;
      var name := NameOf(attrs);
      if name.None? {
        return None;
      }
      error := CountAll(name.value, ErrorCounts(attrs));
    }
  }
}
