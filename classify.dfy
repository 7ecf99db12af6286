/** Type-hierarchy classifiers: `SubclassClassifier` (the mapped value of the
  * nearest matching class, memoised under the concrete class),
  * `BinaryExceptionClassifier` (a boolean classifier that can walk the cause
  * chain) and `ClassifierSupport` (a constant classifier). */
module Classify {
  import opened Types

  // ---------------------------------------------------------------------
  // Hierarchy lookup
  // ---------------------------------------------------------------------

  /** The superclass phase from level `i` upward: the value mapped to the
    * first class of `lineage[i..]` that is a key of `m`. */
  function SuperclassMatch<C>(m: map<TypeId, C>, lineage: seq<ClassInfo>, i: nat): (r: Option<C>)
    requires i <= |lineage|
    ensures r.Some? ==> exists k :: i <= k < |lineage| && lineage[k].name in m && r.value == m[lineage[k].name]
    ensures r.None? <==> forall k :: i <= k < |lineage| ==> lineage[k].name !in m
    decreases |lineage| - i
  {
    if i == |lineage| then None
    else if lineage[i].name in m then Some(m[lineage[i].name])
    else SuperclassMatch(m, lineage, i + 1)
  }

  /** The first interface of `ifcs[j..]` that is a key of `m`. */
  function InterfaceMatchAt<C>(m: map<TypeId, C>, ifcs: seq<TypeId>, j: nat): (r: Option<C>)
    requires j <= |ifcs|
    ensures r.Some? ==> exists k :: j <= k < |ifcs| && ifcs[k] in m && r.value == m[ifcs[k]]
    ensures r.None? <==> forall k :: j <= k < |ifcs| ==> ifcs[k] !in m
    decreases |ifcs| - j
  {
    if j == |ifcs| then None
    else if ifcs[j] in m then Some(m[ifcs[j]])
    else InterfaceMatchAt(m, ifcs, j + 1)
  }

  /** The interface phase from level `i` upward: the levels are visited in
    * order and, within a level, its interfaces in declaration order. */
  function InterfaceMatch<C>(m: map<TypeId, C>, lineage: seq<ClassInfo>, i: nat): (r: Option<C>)
    requires i <= |lineage|
    ensures r.None? <==> forall k, j :: i <= k < |lineage| && 0 <= j < |lineage[k].interfaces| ==>
                                          lineage[k].interfaces[j] !in m
    decreases |lineage| - i
  {
    if i == |lineage| then None
    else
      match InterfaceMatchAt(m, lineage[i].interfaces, 0)
      case Some(v) => Some(v)
      case None => InterfaceMatch(m, lineage, i + 1)
  }

  /** The value found for an error whose own class is not a key: every
    * superclass first (nearest first, `Object` excluded), then interfaces. */
  function Match<C>(m: map<TypeId, C>, f: Failure): Option<C> {
    match SuperclassMatch(m, f.lineage, 1)
    case Some(v) => Some(v)
    case None => InterfaceMatch(m, f.lineage, 0)
  }

  /** The hierarchy walk of `SubclassClassifier.classify`: a superclass loop
    * followed by a loop over levels and their interfaces. */
  method FindMatch<C>(m: map<TypeId, C>, f: Failure) returns (v: Option<C>)
    ensures v == Match(m, f)
  {
    var lineage := f.lineage;
    v := None;
    var i := 1;
    while i < |lineage| && v.None?
      invariant 1 <= i <= |lineage|
      invariant SuperclassMatch(m, lineage, 1) == if v.Some? then v else SuperclassMatch(m, lineage, i)
      decreases |lineage| - i
    {
      if lineage[i].name in m {
        v := Some(m[lineage[i].name]);
      }
      i := i + 1;
    }
    if v.None? {
      assert SuperclassMatch(m, lineage, 1).None?;
      i := 0;
      while i < |lineage| && v.None?
        invariant 0 <= i <= |lineage|
        invariant InterfaceMatch(m, lineage, 0) == if v.Some? then v else InterfaceMatch(m, lineage, i)
        decreases |lineage| - i
      {
        var ifcs := lineage[i].interfaces;
        var j := 0;
        while j < |ifcs|
          invariant 0 <= j <= |ifcs|
          invariant InterfaceMatchAt(m, ifcs, 0) == if v.Some? then v else InterfaceMatchAt(m, ifcs, j)
          invariant v.Some? ==> j < |ifcs|
          decreases |ifcs| - j, if v.None? then 1 else 0
        {
          if ifcs[j] in m {
            v := Some(m[ifcs[j]]);
            break;
          }
          j := j + 1;
        }
        i := i + 1;
      }
    }
  }

  // ---------------------------------------------------------------------
  // SubclassClassifier
  // ---------------------------------------------------------------------

  /** The answer of one classification together with the map after it. */
  datatype Classification<C> = Classification(value: C, memo: map<TypeId, C>)

  /** `SubclassClassifier.classify` as its documentation states it: null
    * gives the default, an exact key its value, otherwise the hierarchy
    * match (memoised under the concrete class) or else the default. */
  function Classified<C>(m: map<TypeId, C>, d: C, x: Option<Failure>): Classification<C> {
    match x
    case None => Classification(d, m)
    case Some(f) =>
      if f.ClassOf() in m then Classification(m[f.ClassOf()], m)
      else
        match Match(m, f)
        case Some(v) => Classification(v, m[f.ClassOf() := v])
        case None => Classification(d, m)
  }

  /** A classifier from error classes to values of `C`, walking the class
    * hierarchy for unmapped classes and remembering what it found. */
  class SubclassClassifier<C> {
    var classified: map<TypeId, C>
    var defaultValue: C

    /** `SubclassClassifier(defaultValue)`: an empty map. */
    constructor (d: C)
      ensures classified == map[] && defaultValue == d
    {
      classified := map[];
      defaultValue := d;
    }

    /** `SubclassClassifier(typeMap, defaultValue)` */
    constructor FromMap(typeMap: map<TypeId, C>, d: C)
      ensures classified == typeMap && defaultValue == d
    {
      classified := typeMap;
      defaultValue := d;
    }

    method SetDefaultValue(d: C)
      modifies this
      ensures defaultValue == d && classified == old(classified)
    {
      defaultValue := d;
    }

    /** `setTypeMap` replaces every previous entry. */
    method SetTypeMap(typeMap: map<TypeId, C>)
      modifies this
      ensures classified == typeMap && defaultValue == old(defaultValue)
    {
      classified := typeMap;
    }

    /** `add(type, target)` */
    method Add(t: TypeId, target: C)
      modifies this
      ensures classified == old(classified)[t := target] && defaultValue == old(defaultValue)
    {
      classified := classified[t := target];
    }

    /** `classify` with its documented result: the value for the nearest
      * match, else the default. A hierarchy match is memoised. */
    method Classify(x: Option<Failure>) returns (r: C)
      modifies this
      ensures r == Classified(old(classified), defaultValue, x).value
      ensures classified == Classified(old(classified), defaultValue, x).memo
      ensures defaultValue == old(defaultValue)
    {
      if x.None? {
        return defaultValue;
      }
      var f := x.value;
      var t := f.ClassOf();
      if t in classified {
        return classified[t];
      }
      var found := FindMatch(classified, f);
      if found.Some? {
        classified := classified[t := found.value];
        r := found.value;
      } else {
        r := defaultValue;
      }
    }

    /** `classify` as written: null input and exact hits answer as
      * documented, but after the hierarchy walk and memoisation the final
      * statement returns `null` whatever was found. */
    method ClassifyAsWritten(x: Option<Failure>) returns (r: Option<C>)
      modifies this
      ensures x.None? || x.value.ClassOf() in old(classified) ==>
                r == Some(Classified(old(classified), defaultValue, x).value)
      ensures x.Some? && x.value.ClassOf() !in old(classified) ==> r.None?
      ensures classified == Classified(old(classified), defaultValue, x).memo
      ensures defaultValue == old(defaultValue)
    {
      var value: Option<C> := None;
      if x.None? {
        return Some(defaultValue);
      }
      var f := x.value;
      var t := f.ClassOf();
      if t in classified {
        return Some(classified[t]);
      }
      value := FindMatch(classified, f);
      if value.Some? {
        classified := classified[t := value.value];
      }
      if value.None? {
        value := Some(defaultValue);
      }
      r := None;
    }
  }

  // ---------------------------------------------------------------------
  // ClassifierSupport
  // ---------------------------------------------------------------------

  /** `ClassifierSupport`: a classifier whose answer is its default. */
  datatype ClassifierSupport<C> = ClassifierSupport(defaultValue: C)
  {
    function Classify(x: Option<Failure>): (r: C)
      ensures r == defaultValue
    {
      defaultValue
    }
  }

  // ---------------------------------------------------------------------
  // BinaryExceptionClassifier
  // ---------------------------------------------------------------------

  /** The configuration of a `BinaryExceptionClassifier`. */
  datatype BinaryRule = BinaryRule(classified: map<TypeId, bool>, defaultValue: bool, traverseCauses: bool)

  /** The loop over the cause chain: each cause is classified with the map
    * as memoised so far, until a non-default answer or the end of the
    * chain (where the null cause classifies to the default). */
  function CauseWalk(m: map<TypeId, bool>, d: bool, c: Option<Failure>): (r: Classification<bool>)
    ensures c.None? ==> r.value == d
    decreases c
  {
    var step := Classified(m, d, c);
    if c.None? || step.value != d then step
    else CauseWalk(step.memo, d, c.value.cause)
  }

  /** `BinaryExceptionClassifier.classify` with the cause traversal its
    * comment promises: the first non-default classification along the
    * chain, else the default. */
  function BinaryClassified(rule: BinaryRule, x: Option<Failure>): (r: Classification<bool>)
    ensures !rule.traverseCauses ==> r == Classified(rule.classified, rule.defaultValue, x)
    ensures Classified(rule.classified, rule.defaultValue, x).value != rule.defaultValue ==>
              r == Classified(rule.classified, rule.defaultValue, x)
  {
    var direct := Classified(rule.classified, rule.defaultValue, x);
    if !rule.traverseCauses || direct.value != rule.defaultValue || x.None? then direct
    else CauseWalk(direct.memo, rule.defaultValue, x.value.cause)
  }

  /** The verdict of a binary rule on an error (the memo is dropped). */
  function BinaryClassify(rule: BinaryRule, x: Option<Failure>): bool {
    BinaryClassified(rule, x).value
  }

  /** The answer of the classify method as written, or the null
    * dereference it runs into. */
  datatype Answer = Answer(b: bool) | NullPointer

  /** The cause loop as written: before moving to the next cause it calls
    * `containsKey(cause.getCause())`; a `Throwable` is never a key of the
    * class-keyed map, and a null argument makes `ConcurrentHashMap` throw. */
  function CauseWalkAsWritten(m: map<TypeId, bool>, d: bool, cause: Failure): Answer
    decreases cause
  {
    match cause.cause
    case None => NullPointer
    case Some(next) =>
      var step := Classified(m, d, Some(next));
      if step.value != d then Answer(step.value)
      else CauseWalkAsWritten(step.memo, d, next)
  }

  /** `BinaryExceptionClassifier.classify` as written at line 77, composed
    * with the documented `super.classify` (`Classified`) so that the cause
    * walk's own defect shows on its own. With `SubclassClassifier.classify`
    * as written, every answer except for null input or an exact key comes
    * back null from the superclass: without traversal that null is
    * returned, and with traversal `classified.equals` dereferences it
    * before the cause walk starts. */
  function BinaryClassifyAsWritten(rule: BinaryRule, x: Option<Failure>): Answer {
    var direct := Classified(rule.classified, rule.defaultValue, x);
    if !rule.traverseCauses || direct.value != rule.defaultValue then Answer(direct.value)
    else if x.None? then NullPointer
    else CauseWalkAsWritten(direct.memo, rule.defaultValue, x.value)
  }

  /** The rule that lists `classes` with `value` and has default `!value`. */
  function ListedRule(classes: seq<TypeId>, value: bool): (r: BinaryRule)
    ensures r.defaultValue == !value && !r.traverseCauses
    ensures forall t :: t in r.classified <==> t in classes
    ensures forall t :: t in r.classified ==> r.classified[t] == value
  {
    BinaryRule(map t | t in classes :: value, !value, false)
  }

  /** A boolean classifier over error classes. Java's subclassing of
    * `SubclassClassifier<Throwable, Boolean>` is kept as a `base` object. */
  class BinaryExceptionClassifier {
    const base: SubclassClassifier<bool>
    var traverseCauses: bool

    /** The configuration this classifier currently answers by. */
    function Rule(): BinaryRule
      reads this, base
    {
      BinaryRule(base.classified, base.defaultValue, traverseCauses)
    }

    /** `BinaryExceptionClassifier(boolean defaultValue)` */
    constructor WithDefault(d: bool)
      ensures Rule() == BinaryRule(map[], d, false)
      ensures fresh(base)
    {
      base := new SubclassClassifier(d);
      traverseCauses := false;
    }

    /** `BinaryExceptionClassifier(Map typeMap, boolean defaultValue)` */
    constructor FromMap(typeMap: map<TypeId, bool>, d: bool)
      ensures Rule() == BinaryRule(typeMap, d, false)
      ensures fresh(base)
    {
      base := new SubclassClassifier.FromMap(typeMap, d);
      traverseCauses := false;
    }

    /** `BinaryExceptionClassifier(Map typeMap)`: default false. */
    constructor FromTypeMap(typeMap: map<TypeId, bool>)
      ensures Rule() == BinaryRule(typeMap, false, false)
      ensures fresh(base)
    {
      base := new SubclassClassifier.FromMap(typeMap, false);
      traverseCauses := false;
    }

    /** `BinaryExceptionClassifier(Collection classes, boolean value)`: the
      * default is `!value`; a non-null collection maps each class to
      * `!default`. */
    constructor ForClasses(classes: Option<seq<TypeId>>, value: bool)
      ensures classes.None? ==> Rule() == BinaryRule(map[], !value, false)
      ensures classes.Some? ==> Rule() == ListedRule(classes.value, value)
      ensures fresh(base)
    {
      base := new SubclassClassifier(!value);
      traverseCauses := false;
      new;
      if classes.Some? {
        var list := classes.value;
        var m: map<TypeId, bool> := map[];
        var i := 0;
        while i < |list|
          invariant 0 <= i <= |list|
          invariant m == map t | t in list[..i] :: !base.defaultValue
        {
          m := m[list[i] := !base.defaultValue];
          assert list[..i + 1] == list[..i] + [list[i]];
          i := i + 1;
        }
        assert list[..i] == list;
        base.SetTypeMap(m);
      }
    }

    /** `BinaryExceptionClassifier(Collection classes)`: listed classes are
      * true, everything else false. */
    constructor ForRetryableClasses(classes: seq<TypeId>)
      ensures Rule() == ListedRule(classes, true)
      ensures fresh(base)
    {
      base := new SubclassClassifier.FromMap(map t | t in classes :: true, false);
      traverseCauses := false;
    }

    /** `defaultClassifier()`: `Exception` is retryable, nothing else. */
    static method DefaultClassifier() returns (c: BinaryExceptionClassifier)
      ensures fresh(c) && fresh(c.base)
      ensures c.Rule() == DefaultRule()
    {
      c := new BinaryExceptionClassifier.FromMap(map[EXCEPTION := true], false);
    }

    method SetTraverseCauses(b: bool)
      modifies this
      ensures Rule() == old(Rule()).(traverseCauses := b)
    {
      traverseCauses := b;
    }

    /** `classify` with the documented cause traversal. */
    method Classify(x: Option<Failure>) returns (r: bool)
      modifies base
      ensures r == BinaryClassified(old(Rule()), x).value
      ensures base.classified == BinaryClassified(old(Rule()), x).memo
      ensures base.defaultValue == old(base.defaultValue)
    {
      ghost var rule := Rule();
      r := base.Classify(x);
      if !traverseCauses || r != base.defaultValue || x.None? {
        return;
      }
      var cause := x.value.cause;
      r := base.Classify(cause);
      while cause.Some? && r == base.defaultValue
        invariant base.defaultValue == rule.defaultValue && traverseCauses
        invariant BinaryClassified(rule, x) ==
          if cause.None? || r != rule.defaultValue then Classification(r, base.classified)
          else CauseWalk(base.classified, rule.defaultValue, cause.value.cause)
        decreases cause
      {
        cause := cause.value.cause;
        r := base.Classify(cause);
      }
    }
  }

  /** The rule of `defaultClassifier()`. */
  function DefaultRule(): (r: BinaryRule)
    ensures r.defaultValue == false && !r.traverseCauses
  {
    BinaryRule(map[EXCEPTION := true], false, false)
  }
}
