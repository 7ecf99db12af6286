/** `BinaryExceptionClassifierBuilder`: classes accumulate under one mode,
  * either all retryable (`retryOn`) or all not retryable (`notRetryOn`). */
module ClassifierBuilder {
  import opened Types
  import opened Classify

  class BinaryExceptionClassifierBuilder {
    /** null until the first class is added; then whether it is a white list. */
    var isWhiteList: Option<bool>
    var traverseCauses: bool
    var exceptionClasses: seq<TypeId>

    /** The mode is chosen exactly when some class has been added. */
    ghost predicate Valid()
      reads this
    {
      isWhiteList.None? <==> exceptionClasses == []
    }

    constructor ()
      ensures Valid()
      ensures isWhiteList == None && !traverseCauses && exceptionClasses == []
    {
      isWhiteList := None;
      traverseCauses := false;
      exceptionClasses := [];
    }

    /** `retryOn`: rejected after `notRetryOn` or for a null class; otherwise
      * the class is appended and the mode is white list. */
    method RetryOn(throwable: Option<TypeId>) returns (ok: bool)
      requires Valid()
      modifies this
      ensures Valid()
      ensures ok <==> old(isWhiteList) != Some(false) && throwable.Some?
      ensures ok ==> isWhiteList == Some(true) && exceptionClasses == old(exceptionClasses) + [throwable.value]
      ensures !ok ==> isWhiteList == old(isWhiteList) && exceptionClasses == old(exceptionClasses)
      ensures traverseCauses == old(traverseCauses)
    {
      if isWhiteList == Some(false) || throwable.None? {
        return false;
      }
      isWhiteList := Some(true);
      exceptionClasses := exceptionClasses + [throwable.value];
      ok := true;
    }

    /** `notRetryOn`: the mirror image of `retryOn`. */
    method NotRetryOn(throwable: Option<TypeId>) returns (ok: bool)
      requires Valid()
      modifies this
      ensures Valid()
      ensures ok <==> old(isWhiteList) != Some(true) && throwable.Some?
      ensures ok ==> isWhiteList == Some(false) && exceptionClasses == old(exceptionClasses) + [throwable.value]
      ensures !ok ==> isWhiteList == old(isWhiteList) && exceptionClasses == old(exceptionClasses)
      ensures traverseCauses == old(traverseCauses)
    {
      if isWhiteList == Some(true) || throwable.None? {
        return false;
      }
      isWhiteList := Some(false);
      exceptionClasses := exceptionClasses + [throwable.value];
      ok := true;
    }

    method TraversingCauses()
      requires Valid()
      modifies this
      ensures Valid()
      ensures traverseCauses && isWhiteList == old(isWhiteList) && exceptionClasses == old(exceptionClasses)
    {
      traverseCauses := true;
    }

    /** `build`: rejected (null) with no classes; otherwise a classifier
      * mapping every added class to the mode's value, with the opposite
      * default, carrying the traversal flag. */
    method Build() returns (c: BinaryExceptionClassifier?)
      requires Valid()
      ensures (c == null) <==> exceptionClasses == []
      ensures c != null ==>
                fresh(c) && fresh(c.base) &&
                c.Rule() == ListedRule(exceptionClasses, isWhiteList.value).(traverseCauses := traverseCauses)
    {
      if exceptionClasses == [] {
        return null;
      }
      c := new BinaryExceptionClassifier.ForClasses(Some(exceptionClasses), isWhiteList.value);
      c.SetTraverseCauses(traverseCauses);
    }
  }

  /** No class or interface of the error's lineage is among `classes`. */
  predicate Unlisted(f: Failure, classes: seq<TypeId>) {
    (forall k :: 0 <= k < |f.lineage| ==> f.lineage[k].name !in classes) &&
    (forall k, j :: 0 <= k < |f.lineage| && 0 <= j < |f.lineage[k].interfaces| ==> f.lineage[k].interfaces[j] !in classes)
  }

  /** What a built classifier answers: true for an added class after
    * `retryOn`, false after `notRetryOn`; an error with nothing of its
    * lineage added gets the opposite. */
  lemma BuiltRuleAnswers(classes: seq<TypeId>, whiteList: bool, traverse: bool, f: Failure)
    ensures f.ClassOf() in classes ==>
              BinaryClassify(ListedRule(classes, whiteList).(traverseCauses := traverse), Some(f)) == whiteList
    ensures !traverse && Unlisted(f, classes) ==>
              BinaryClassify(ListedRule(classes, whiteList).(traverseCauses := traverse), Some(f)) == !whiteList
  {
    var rule := ListedRule(classes, whiteList).(traverseCauses := traverse);
    if !traverse && Unlisted(f, classes) {
      assert SuperclassMatch(rule.classified, f.lineage, 1).None?;
      assert InterfaceMatch(rule.classified, f.lineage, 0).None?;
    }
  }
}
