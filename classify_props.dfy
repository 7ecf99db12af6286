/** Properties of the classifiers: the lookup order, memoisation, the cause
  * traversal, and the two places where the classify methods as written
  * differ from what their comments promise. */
module ClassifyProps {
  import opened Types
  import opened Classify

  /** The superclass phase answers with the nearest superclass that is a key. */
  lemma {:induction false} SuperclassMatchIsNearest<C>(m: map<TypeId, C>, lineage: seq<ClassInfo>, i: nat, k: nat)
    requires i <= k < |lineage| && lineage[k].name in m
    requires forall j :: i <= j < k ==> lineage[j].name !in m
    ensures SuperclassMatch(m, lineage, i) == Some(m[lineage[k].name])
    decreases k - i
  {
    if i < k {
      SuperclassMatchIsNearest(m, lineage, i + 1, k);
    }
  }

  /** The interface phase answers with the first key in level order and,
    * within a level, in declaration order. */
  lemma {:induction false} InterfaceMatchIsFirst<C>(m: map<TypeId, C>, lineage: seq<ClassInfo>, i: nat, k: nat, j: nat)
    requires i <= k < |lineage| && j < |lineage[k].interfaces| && lineage[k].interfaces[j] in m
    requires forall l, n :: i <= l < k && 0 <= n < |lineage[l].interfaces| ==> lineage[l].interfaces[n] !in m
    requires forall n :: 0 <= n < j ==> lineage[k].interfaces[n] !in m
    ensures InterfaceMatch(m, lineage, i) == Some(m[lineage[k].interfaces[j]])
    decreases k - i
  {
    if i < k {
      assert InterfaceMatchAt(m, lineage[i].interfaces, 0).None?;
      InterfaceMatchIsFirst(m, lineage, i + 1, k, j);
    } else {
      InterfaceMatchAtIsFirst(m, lineage[k].interfaces, 0, j);
    }
  }

  lemma {:induction false} InterfaceMatchAtIsFirst<C>(m: map<TypeId, C>, ifcs: seq<TypeId>, i: nat, j: nat)
    requires i <= j < |ifcs| && ifcs[j] in m
    requires forall n :: i <= n < j ==> ifcs[n] !in m
    ensures InterfaceMatchAt(m, ifcs, i) == Some(m[ifcs[j]])
    decreases j - i
  {
    if i < j {
      InterfaceMatchAtIsFirst(m, ifcs, i + 1, j);
    }
  }

  /** A found interface value is the value of some interface key. */
  lemma {:induction false} InterfaceMatchIsMapped<C>(m: map<TypeId, C>, lineage: seq<ClassInfo>, i: nat)
    requires i <= |lineage| && InterfaceMatch(m, lineage, i).Some?
    ensures InterfaceMatch(m, lineage, i).value in m.Values
    decreases |lineage| - i
  {
    if i < |lineage| {
      var here := InterfaceMatchAt(m, lineage[i].interfaces, 0);
      if here.None? {
        InterfaceMatchIsMapped(m, lineage, i + 1);
      }
    }
  }

  /** An exact key answers with its own value and leaves the map alone. */
  lemma ExactClassWins<C>(m: map<TypeId, C>, d: C, f: Failure)
    requires f.ClassOf() in m
    ensures Classified(m, d, Some(f)) == Classification(m[f.ClassOf()], m)
  {
  }

  /** With the concrete class unmapped, the nearest mapped superclass wins
    * whatever interfaces are mapped, and its value is memoised. */
  lemma NearestSuperclassWins<C>(m: map<TypeId, C>, d: C, f: Failure, k: nat)
    requires f.ClassOf() !in m
    requires 1 <= k < |f.lineage| && f.lineage[k].name in m
    requires forall j :: 1 <= j < k ==> f.lineage[j].name !in m
    ensures Classified(m, d, Some(f)) == Classification(m[f.lineage[k].name], m[f.ClassOf() := m[f.lineage[k].name]])
  {
    SuperclassMatchIsNearest(m, f.lineage, 1, k);
  }

  /** Interfaces are consulted only when no class of the lineage is mapped;
    * then the first mapped interface wins and is memoised. */
  lemma FirstInterfaceWins<C>(m: map<TypeId, C>, d: C, f: Failure, k: nat, j: nat)
    requires forall l :: 0 <= l < |f.lineage| ==> f.lineage[l].name !in m
    requires k < |f.lineage| && j < |f.lineage[k].interfaces| && f.lineage[k].interfaces[j] in m
    requires forall l, n :: 0 <= l < k && 0 <= n < |f.lineage[l].interfaces| ==> f.lineage[l].interfaces[n] !in m
    requires forall n :: 0 <= n < j ==> f.lineage[k].interfaces[n] !in m
    ensures Classified(m, d, Some(f)).value == m[f.lineage[k].interfaces[j]]
    ensures Classified(m, d, Some(f)).memo == m[f.ClassOf() := m[f.lineage[k].interfaces[j]]]
  {
    assert f.lineage[0].name !in m;
    InterfaceMatchIsFirst(m, f.lineage, 0, k, j);
  }

  /** The answer is the default or a mapped value; the map either stays as it
    * was or gains exactly the concrete class, bound to the answer. */
  lemma ClassifiedIsMappedOrDefault<C>(m: map<TypeId, C>, d: C, x: Option<Failure>)
    ensures var c := Classified(m, d, x);
      (c.value == d || c.value in m.Values) &&
      (c.memo == m || (x.Some? && x.value.ClassOf() !in m && c.memo == m[x.value.ClassOf() := c.value]))
  {
    if x.Some? && x.value.ClassOf() !in m {
      var f := x.value;
      if SuperclassMatch(m, f.lineage, 1).None? && InterfaceMatch(m, f.lineage, 0).Some? {
        InterfaceMatchIsMapped(m, f.lineage, 0);
      }
    }
  }

  /** Memoisation never changes an existing entry. */
  lemma MemoKeepsEntries<C>(m: map<TypeId, C>, d: C, x: Option<Failure>)
    ensures forall t :: t in m ==> t in Classified(m, d, x).memo && Classified(m, d, x).memo[t] == m[t]
  {
    ClassifiedIsMappedOrDefault(m, d, x);
  }

  /** A second classification of the same error gives the same answer and
    * changes nothing more: a memoised class hits the exact-key branch. */
  lemma ReclassifyIsStable<C>(m: map<TypeId, C>, d: C, x: Option<Failure>)
    ensures var first := Classified(m, d, x);
      Classified(first.memo, d, x) == Classification(first.value, first.memo)
  {
    ClassifiedIsMappedOrDefault(m, d, x);
  }

  /** `add(t, v)` makes an error of class `t` classify to `v`. */
  lemma AddedClassClassifies<C>(m: map<TypeId, C>, d: C, t: TypeId, v: C, f: Failure)
    requires f.ClassOf() == t
    ensures Classified(m[t := v], d, Some(f)).value == v
  {
  }

  /** Memoisation is visible to other classes: after an error of class T is
    * classified through T's interface, a subclass U of T that declares its
    * own mapped interface answers with T's memoised value instead of its
    * own interface's value, since superclasses are tried before interfaces. */
  lemma MemoCanChangeSubclassAnswer()
    ensures var ifcI := 20; var ifcJ := 21; var classT := 30; var classU := 31;
      var m := map[ifcI := 1, ifcJ := 2];
      var t := Failure([ClassInfo(classT, [ifcJ]), ClassInfo(THROWABLE, [])], None);
      var u := Failure([ClassInfo(classU, [ifcI]), ClassInfo(classT, [ifcJ]), ClassInfo(THROWABLE, [])], None);
      Classified(m, 0, Some(u)).value == 1 &&
      Classified(Classified(m, 0, Some(t)).memo, 0, Some(u)).value == 2
  {
    var m := map[20 := 1, 21 := 2];
    var t := Failure([ClassInfo(30, [21]), ClassInfo(THROWABLE, [])], None);
    var u := Failure([ClassInfo(31, [20]), ClassInfo(30, [21]), ClassInfo(THROWABLE, [])], None);
    InterfaceMatchIsFirst(m, u.lineage, 0, 0, 0);
    InterfaceMatchIsFirst(m, t.lineage, 0, 0, 0);
    var memo := Classified(m, 0, Some(t)).memo;
    assert memo == m[30 := 2];
    SuperclassMatchIsNearest(memo, u.lineage, 1, 1);
  }

  /** No key of `m` is an interface declared anywhere in `f`'s lineage. A
    * map keyed by exception classes has this property for every error. */
  predicate NoInterfaceKeys<C>(m: map<TypeId, C>, f: Failure) {
    forall k, j :: 0 <= k < |f.lineage| && 0 <= j < |f.lineage[k].interfaces| ==>
      f.lineage[k].interfaces[j] !in m
  }

  /** `u`'s lineage agrees with `t`'s class hierarchy: wherever `t`'s class
    * appears in it, `t`'s own superclasses follow, and `t`'s class is not
    * one of the interfaces `u`'s classes declare. */
  predicate AgreesWith(u: Failure, t: Failure) {
    && (forall j :: 0 <= j < |u.lineage| && u.lineage[j].name == t.ClassOf() ==> u.lineage[j..] == t.lineage)
    && (forall k, j :: 0 <= k < |u.lineage| && 0 <= j < |u.lineage[k].interfaces| ==>
          u.lineage[k].interfaces[j] != t.ClassOf())
  }

  /** Without interface keys the answer is the nearest mapped class of the
    * whole lineage, the error's own class included, or else the default. */
  lemma ClassKeysAnswer<C>(m: map<TypeId, C>, d: C, f: Failure)
    requires NoInterfaceKeys(m, f)
    ensures Classified(m, d, Some(f)).value ==
            match SuperclassMatch(m, f.lineage, 0) case Some(v) => v case None => d
  {
    assert InterfaceMatch(m, f.lineage, 0).None?;
  }

  /** The superclass phase depends only on the part of the lineage it walks. */
  lemma {:induction false} SuperclassMatchOfSuffix<C>(m: map<TypeId, C>, a: seq<ClassInfo>, i: nat,
                                                      b: seq<ClassInfo>, j: nat)
    requires i <= |a| && j <= |b| && a[i..] == b[j..]
    ensures SuperclassMatch(m, a, i) == SuperclassMatch(m, b, j)
    decreases |a| - i
  {
    if i < |a| {
      assert a[i] == a[i..][0] == b[j..][0] == b[j];
      assert a[i + 1..] == a[i..][1..] == b[j..][1..] == b[j + 1..];
      SuperclassMatchOfSuffix(m, a, i + 1, b, j + 1);
    }
  }

  /** Adding the entry `c := v` leaves the superclass phase unchanged when
    * every occurrence of `c` would have gone on to find `v` anyway. */
  lemma {:induction false} SuperclassMatchIgnoresMemo<C>(m: map<TypeId, C>, c: TypeId, v: C,
                                                         lineage: seq<ClassInfo>, i: nat)
    requires i <= |lineage| && c !in m
    requires forall k :: i <= k < |lineage| && lineage[k].name == c ==> SuperclassMatch(m, lineage, k + 1) == Some(v)
    ensures SuperclassMatch(m[c := v], lineage, i) == SuperclassMatch(m, lineage, i)
    decreases |lineage| - i
  {
    if i < |lineage| && lineage[i].name != c && lineage[i].name !in m {
      SuperclassMatchIgnoresMemo(m, c, v, lineage, i + 1);
    }
  }

  /** Memoisation never changes a later answer while no key is an interface,
    * as with the policy maps, which are keyed by exception classes: after
    * `t` is classified, `u` answers as it would have before. */
  lemma MemoKeepsClassAnswers<C>(m: map<TypeId, C>, d: C, t: Failure, u: Failure)
    requires NoInterfaceKeys(m, t) && NoInterfaceKeys(m, u) && AgreesWith(u, t)
    ensures Classified(Classified(m, d, Some(t)).memo, d, Some(u)).value == Classified(m, d, Some(u)).value
  {
    var c := t.ClassOf();
    if c !in m && Match(m, t).Some? {
      var v := Match(m, t).value;
      assert InterfaceMatch(m, t.lineage, 0).None?;
      assert SuperclassMatch(m, t.lineage, 1) == Some(v);
      forall k | 0 <= k < |u.lineage| && u.lineage[k].name == c
        ensures SuperclassMatch(m, u.lineage, k + 1) == Some(v)
      {
        assert u.lineage[k..] == t.lineage;
        assert u.lineage[k + 1..] == u.lineage[k..][1..];
        SuperclassMatchOfSuffix(m, u.lineage, k + 1, t.lineage, 1);
      }
      SuperclassMatchIgnoresMemo(m, c, v, u.lineage, 0);
      ClassKeysAnswer(m[c := v], d, u);
      ClassKeysAnswer(m, d, u);
    }
  }

  /** Line 77 of the subclass classifier returns null: an error whose class
    * is unmapped but whose superclass `Exception` is mapped to true is
    * classified true by the documented behaviour (the as-written method
    * answers null for exactly this case: its class is not a key). */
  lemma HierarchyMatchIsNotNull()
    ensures var f := Failure([ClassInfo(40, []), ClassInfo(EXCEPTION, []), ClassInfo(THROWABLE, [])], None);
      f.ClassOf() !in map[EXCEPTION := true] &&
      Classified(map[EXCEPTION := true], false, Some(f)) == Classification(true, map[EXCEPTION := true, 40 := true])
  {
    var f := Failure([ClassInfo(40, []), ClassInfo(EXCEPTION, []), ClassInfo(THROWABLE, [])], None);
    SuperclassMatchIsNearest(map[EXCEPTION := true], f.lineage, 1, 1);
  }

  // ---------------------------------------------------------------------
  // Cause traversal
  // ---------------------------------------------------------------------

  /** The error followed by its causes, outermost first. */
  function Causes(f: Failure): (s: seq<Failure>)
    ensures |s| > 0 && s[0] == f
    decreases f
  {
    match f.cause
    case None => [f]
    case Some(g) => [f] + Causes(g)
  }

  /** The cause walk finds a cause whose own class is listed with the
    * non-default value (every answer is non-default from there on). */
  lemma {:induction false} CauseWalkFindsListed(m: map<TypeId, bool>, d: bool, c: Option<Failure>, g: Failure)
    requires c.Some? && g in Causes(c.value)
    requires g.ClassOf() in m && m[g.ClassOf()] != d
    ensures CauseWalk(m, d, c).value != d
    decreases c
  {
    var f := c.value;
    var step := Classified(m, d, c);
    if step.value == d {
      assert g != f;
      assert f.cause.Some? && g in Causes(f.cause.value);
      MemoKeepsEntries(m, d, c);
      CauseWalkFindsListed(step.memo, d, f.cause, g);
    }
  }

  /** With traversal on, an error any of whose causes has its class listed
    * with the non-default value classifies to the non-default value. */
  lemma ListedCauseIsFound(rule: BinaryRule, f: Failure, g: Failure)
    requires rule.traverseCauses
    requires g in Causes(f) && g.ClassOf() in rule.classified && rule.classified[g.ClassOf()] != rule.defaultValue
    ensures BinaryClassify(rule, Some(f)) != rule.defaultValue
  {
    var direct := Classified(rule.classified, rule.defaultValue, Some(f));
    if direct.value == rule.defaultValue && f != g {
      MemoKeepsEntries(rule.classified, rule.defaultValue, Some(f));
      assert f.cause.Some? && g in Causes(f.cause.value);
      CauseWalkFindsListed(direct.memo, rule.defaultValue, f.cause, g);
    }
  }

  /** Without traversal, causes are ignored. */
  lemma NoTraversalIgnoresCauses(rule: BinaryRule, f: Failure, c1: Option<Failure>, c2: Option<Failure>)
    requires !rule.traverseCauses
    ensures BinaryClassify(rule, Some(f.(cause := c1))) == BinaryClassify(rule, Some(f.(cause := c2)))
  {
  }

  lemma {:induction false} CauseWalkAsWrittenAgrees(m: map<TypeId, bool>, d: bool, f: Failure)
    ensures CauseWalkAsWritten(m, d, f) ==
      if CauseWalk(m, d, f.cause).value == d then NullPointer else Answer(CauseWalk(m, d, f.cause).value)
    decreases f
  {
    match f.cause
    case None =>
    case Some(next) =>
      var step := Classified(m, d, Some(next));
      if step.value == d {
        CauseWalkAsWrittenAgrees(step.memo, d, next);
      }
  }

  /** The classify method as written agrees with the documented traversal
    * except that, with traversal on, every input whose documented answer is
    * the default raises a null dereference instead. */
  lemma AsWrittenThrowsWhereDefaultIsDue(rule: BinaryRule, x: Option<Failure>)
    ensures BinaryClassifyAsWritten(rule, x) ==
      if rule.traverseCauses && BinaryClassify(rule, x) == rule.defaultValue then NullPointer
      else Answer(BinaryClassify(rule, x))
  {
    var direct := Classified(rule.classified, rule.defaultValue, x);
    if rule.traverseCauses && direct.value == rule.defaultValue && x.Some? {
      CauseWalkAsWrittenAgrees(direct.memo, rule.defaultValue, x.value);
    }
  }

  /** The smallest input that shows it: an unlisted error without a cause
    * under a traversing rule that lists nothing. */
  lemma AsWrittenThrowsOnCauselessError()
    ensures var rule := BinaryRule(map[], false, true);
      var f := Failure([ClassInfo(EXCEPTION, []), ClassInfo(THROWABLE, [])], None);
      BinaryClassifyAsWritten(rule, Some(f)) == NullPointer && BinaryClassify(rule, Some(f)) == false
  {
    var f := Failure([ClassInfo(EXCEPTION, []), ClassInfo(THROWABLE, [])], None);
    var none: map<TypeId, bool> := map[];
    assert SuperclassMatch(none, f.lineage, 1).None?;
  }
}
