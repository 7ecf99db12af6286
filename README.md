# Spring Retry core in Dafny

This project models the core of a study copy of Spring Retry
(`com.github.liyibo1110.spring.retry` and `com.github.liyibo1110.spring.classify`):
the library that runs a callback again, under a retry policy and a back-off
policy, until it succeeds, the policy refuses, or recovery takes over.

What is modelled:

- **Classifiers** (`classify.dfy`, `classify_props.dfy`, `classifier_builder.dfy`).
  - `SubclassClassifier` is a class that memoises in place. Its lookup walks
    the superclasses, then the interfaces, and is proved against a
    specification function.
  - `BinaryExceptionClassifier` can walk the cause chain.
  - `ClassifierSupport` and `BinaryExceptionClassifierBuilder` are modelled too.
  - An error is a value: its class lineage (each class with its declared
    interfaces) and an optional cause.
- **Retry policies** (`policy.dfy`, `policy_props.dfy`).
  - The family is max-attempts, never, always, timeout, predicate,
    binary-classifier, simple, composite, exception-classifier and circuit
    breaker.
  - A policy is a value. `open`, `canRetry`, `registerThrowable` and
    `getMaxAttempts` are functions from the policy, the context state and the
    clock reading to the new context state.
  - The composite's loops are methods proved against those functions.
- **Contexts and retry state** (`context.dfy`). `RetryContextSupport` is a
  class whose fields the template updates; `DefaultRetryState` is a value.
- **Context caches** (`cache.dfy`). `MapRetryContextCache` has a capacity;
  `SoftReferenceMapRetryContextCache` can lose entries to the garbage
  collector.
- **The thread-bound context** (`sync.dfy`): `RetrySynchronizationManager`.
- **Back-off policies** (`backoff.dfy`, `backoff_props.dfy`,
  `backoff_builder.dfy`).
  - Exponential, fixed, uniform-random, no back-off and stateless are
    modelled. Sleepers and random sources are objects that record what they
    were asked.
  - `BackOffPolicyBuilder` chooses among them.
- **The template** (`template_spec.dfy`, `template.dfy`, `template_props.dfy`).
  - `template_spec.dfy` is a value specification of `RetryTemplate.doExecute`.
    A run is a script of callback outcomes; the specification yields the
    verdict, the listener events, the sleeps and the cache.
  - `RetryTemplate` is a class, and each stage of `doExecute` is a method
    proved against the matching stage of that specification.
  - The lemmas derive the promised behaviour from the specification:
    - the attempt count before success or exhaustion;
    - rethrow for stateful runs;
    - the global-state rule;
    - listener order;
    - the veto by `open`.
- **The template builder** (`template_builder.dfy`): `RetryTemplateBuilder`.
- **Statistics** (`stats.dfy`): `DefaultRetryStatistics`,
  `DefaultStatisticsRepository` and `StatisticsListener`.


## Model

| member | source | states |
|---|---|---|
| Classify.SuperclassMatch | src/main/java/com/github/liyibo1110/spring/classify/SubclassClassifier.java:55-58 | Some: the value of a class at or above the level that is a key. None exactly when no class there is a key. |
| Classify.InterfaceMatchAt | src/main/java/com/github/liyibo1110/spring/classify/SubclassClassifier.java:63-67 | Some: the value of one of the interfaces that is a key. None exactly when none of them is a key. |
| Classify.InterfaceMatch | src/main/java/com/github/liyibo1110/spring/classify/SubclassClassifier.java:61-68 | None exactly when no interface declared at or above the level is a key. |
| Classify.FindMatch | src/main/java/com/github/liyibo1110/spring/classify/SubclassClassifier.java:54-69 | The two loops of the hierarchy walk return the superclass match, or else the interface match, as the specification function `Match` defines it. |
| Classify.SubclassClassifier.constructor | src/main/java/com/github/liyibo1110/spring/classify/SubclassClassifier.java:22-24 | A classifier with the given default and no entries. |
| Classify.SubclassClassifier.FromMap | src/main/java/com/github/liyibo1110/spring/classify/SubclassClassifier.java:26-30 | A classifier with a copy of the type map and the given default. |
| Classify.SubclassClassifier.SetDefaultValue | src/main/java/com/github/liyibo1110/spring/classify/SubclassClassifier.java:32-34 | The default is replaced; the entries are kept. |
| Classify.SubclassClassifier.SetTypeMap | src/main/java/com/github/liyibo1110/spring/classify/SubclassClassifier.java:36-38 | The entries become exactly the new map; the default is kept. |
| Classify.SubclassClassifier.Add | src/main/java/com/github/liyibo1110/spring/classify/SubclassClassifier.java:40-42 | One entry is added or replaced; nothing else changes. |
| Classify.SubclassClassifier.Classify | src/main/java/com/github/liyibo1110/spring/classify/SubclassClassifier.java:45-75 | The behaviour the class comment promises: null gives the default, an exact key gives its value, otherwise the hierarchy match is returned and memoised under the concrete class, or else the default. |
| Classify.SubclassClassifier.ClassifyAsWritten | src/main/java/com/github/liyibo1110/spring/classify/SubclassClassifier.java:45-77 | The method as written: null and exact hits answer as documented; every other input returns null, although the memo is updated. |
| Classify.ClassifierSupport.Classify | src/main/java/com/github/liyibo1110/spring/classify/ClassifierSupport.java:11-19 | Every input gets the default. |
| Classify.CauseWalk | src/main/java/com/github/liyibo1110/spring/classify/BinaryExceptionClassifier.java:73-83 | The cause walk classifies each cause with the memo so far and stops at the first non-default answer; the end of the chain answers the default. |
| Classify.BinaryClassified | src/main/java/com/github/liyibo1110/spring/classify/BinaryExceptionClassifier.java:66-85 | Without traversal, the answer is the subclass classification. A non-default direct answer is kept as is. Otherwise the causes are walked. |
| Classify.ListedRule | src/main/java/com/github/liyibo1110/spring/classify/BinaryExceptionClassifier.java:46-55 | The listed classes map to `value`, nothing else is mapped, and the default is `!value`. |
| Classify.BinaryExceptionClassifier.WithDefault | src/main/java/com/github/liyibo1110/spring/classify/BinaryExceptionClassifier.java:20-22 | No entries, the given default, no traversal. |
| Classify.BinaryExceptionClassifier.FromMap | src/main/java/com/github/liyibo1110/spring/classify/BinaryExceptionClassifier.java:34-37 | The given map and default, no traversal. |
| Classify.BinaryExceptionClassifier.FromTypeMap | src/main/java/com/github/liyibo1110/spring/classify/BinaryExceptionClassifier.java:42-44 | The given map with default false. |
| Classify.BinaryExceptionClassifier.ForClasses | src/main/java/com/github/liyibo1110/spring/classify/BinaryExceptionClassifier.java:46-55 | A null collection leaves the rule empty with default `!value`; otherwise each listed class maps to `value`. |
| Classify.BinaryExceptionClassifier.ForRetryableClasses | src/main/java/com/github/liyibo1110/spring/classify/BinaryExceptionClassifier.java:27-29 | The listed classes are true and the default is false. |
| Classify.BinaryExceptionClassifier.DefaultClassifier | src/main/java/com/github/liyibo1110/spring/classify/BinaryExceptionClassifier.java:57-60 | `Exception` maps to true, default false, no traversal. |
| Classify.BinaryExceptionClassifier.SetTraverseCauses | src/main/java/com/github/liyibo1110/spring/classify/BinaryExceptionClassifier.java:62-64 | Only the traversal flag changes. |
| Classify.BinaryExceptionClassifier.Classify | src/main/java/com/github/liyibo1110/spring/classify/BinaryExceptionClassifier.java:66-85 | The loop over the cause chain returns the documented traversal answer and leaves the memo the specification predicts. |
| ClassifyProps.SuperclassMatchIsNearest | src/main/java/com/github/liyibo1110/spring/classify/SubclassClassifier.java:55-58 | The nearest superclass that is a key wins. |
| ClassifyProps.InterfaceMatchIsFirst | src/main/java/com/github/liyibo1110/spring/classify/SubclassClassifier.java:61-68 | The first key wins: levels are taken nearest first, and interfaces in declaration order within a level. |
| ClassifyProps.InterfaceMatchAtIsFirst | src/main/java/com/github/liyibo1110/spring/classify/SubclassClassifier.java:63-67 | Within one level, the first interface that is a key wins. |
| ClassifyProps.InterfaceMatchIsMapped | src/main/java/com/github/liyibo1110/spring/classify/SubclassClassifier.java:61-68 | A value found by the interface phase is one of the map's values. |
| ClassifyProps.ExactClassWins | src/main/java/com/github/liyibo1110/spring/classify/SubclassClassifier.java:50-52 | An exact key answers with its value and leaves the map unchanged. |
| ClassifyProps.NearestSuperclassWins | src/main/java/com/github/liyibo1110/spring/classify/SubclassClassifier.java:54-72 | With the class itself unmapped, the nearest mapped superclass wins whatever interfaces are mapped, and it is memoised. |
| ClassifyProps.FirstInterfaceWins | src/main/java/com/github/liyibo1110/spring/classify/SubclassClassifier.java:59-72 | Interfaces decide only when no class of the lineage is mapped; the first mapped interface wins and is memoised. |
| ClassifyProps.ClassifiedIsMappedOrDefault | src/main/java/com/github/liyibo1110/spring/classify/SubclassClassifier.java:45-75 | The answer is the default or a mapped value. The map is unchanged, or gains exactly the concrete class bound to the answer. |
| ClassifyProps.MemoKeepsEntries | src/main/java/com/github/liyibo1110/spring/classify/SubclassClassifier.java:71-72 | Memoisation never changes an existing entry. |
| ClassifyProps.ReclassifyIsStable | src/main/java/com/github/liyibo1110/spring/classify/SubclassClassifier.java:50-72 | Classifying the same error again gives the same answer and changes nothing more. |
| ClassifyProps.AddedClassClassifies | src/main/java/com/github/liyibo1110/spring/classify/SubclassClassifier.java:40-52 | After `add(t, v)`, an error of class `t` classifies to `v`. |
| ClassifyProps.MemoCanChangeSubclassAnswer | src/main/java/com/github/liyibo1110/spring/classify/SubclassClassifier.java:53-72 | A concrete case where memoising a superclass changes the later answer for its subclass: superclasses are tried before interfaces. |
| ClassifyProps.ClassKeysAnswer | src/main/java/com/github/liyibo1110/spring/classify/SubclassClassifier.java:51-74 | When no key is an interface of the error's lineage, the answer is the value of the nearest mapped class, the error's own class included, or else the default. |
| ClassifyProps.SuperclassMatchIgnoresMemo | src/main/java/com/github/liyibo1110/spring/classify/SubclassClassifier.java:71-72 | A memo entry `c := v` leaves the superclass walk unchanged when every occurrence of `c` in the lineage would go on to find `v` anyway. |
| ClassifyProps.MemoKeepsClassAnswers | src/main/java/com/github/liyibo1110/spring/classify/SubclassClassifier.java:71-72 | When no key is an interface and the two lineages agree on the class hierarchy, the memo written while classifying one error never changes the answer for another. |
| ClassifyProps.HierarchyMatchIsNotNull | src/main/java/com/github/liyibo1110/spring/classify/SubclassClassifier.java:71-77 | An error matched through its superclass classifies to the superclass's value, where the method as written returns null. |
| ClassifyProps.CauseWalkFindsListed | src/main/java/com/github/liyibo1110/spring/classify/BinaryExceptionClassifier.java:73-82 | A cause whose class is listed with the non-default value makes the walk answer non-default. |
| ClassifyProps.ListedCauseIsFound | src/main/java/com/github/liyibo1110/spring/classify/BinaryExceptionClassifier.java:66-85 | With traversal on, an error with any cause so listed classifies non-default. |
| ClassifyProps.NoTraversalIgnoresCauses | src/main/java/com/github/liyibo1110/spring/classify/BinaryExceptionClassifier.java:69-71 | Without traversal, the cause does not affect the answer. |
| ClassifyProps.CauseWalkAsWrittenAgrees | src/main/java/com/github/liyibo1110/spring/classify/BinaryExceptionClassifier.java:75-82 | The loop as written finds the same non-default answers, but raises a null dereference where the walk ends with the default. |
| ClassifyProps.AsWrittenThrowsWhereDefaultIsDue | src/main/java/com/github/liyibo1110/spring/classify/BinaryExceptionClassifier.java:74-84 | The method as written agrees with the documented answer, except with traversal on and a default answer due, where it throws. |
| ClassifyProps.AsWrittenThrowsOnCauselessError | src/main/java/com/github/liyibo1110/spring/classify/BinaryExceptionClassifier.java:76-78 | A concrete input shows the discrepancy: a causeless error under an empty traversing rule. |
| ClassifierBuilder.BinaryExceptionClassifierBuilder.constructor | src/main/java/com/github/liyibo1110/spring/classify/BinaryExceptionClassifierBuilder.java:14-16 | No mode, no traversal, no classes. |
| ClassifierBuilder.BinaryExceptionClassifierBuilder.RetryOn | src/main/java/com/github/liyibo1110/spring/classify/BinaryExceptionClassifierBuilder.java:21-28 | Accepted exactly when the mode is not black-list and the class is not null. Accepting appends the class and sets white-list mode; a refusal changes nothing. |
| ClassifierBuilder.BinaryExceptionClassifierBuilder.NotRetryOn | src/main/java/com/github/liyibo1110/spring/classify/BinaryExceptionClassifierBuilder.java:33-40 | The mirror image of `retryOn`, for black-list mode. |
| ClassifierBuilder.BinaryExceptionClassifierBuilder.TraversingCauses | src/main/java/com/github/liyibo1110/spring/classify/BinaryExceptionClassifierBuilder.java:42-45 | Only the traversal flag is set. |
| ClassifierBuilder.BinaryExceptionClassifierBuilder.Build | src/main/java/com/github/liyibo1110/spring/classify/BinaryExceptionClassifierBuilder.java:47-54 | Refused exactly when no class was added. Otherwise the new classifier maps the classes to the mode's value, with the opposite default and the traversal flag. |
| ClassifierBuilder.BuiltRuleAnswers | src/main/java/com/github/liyibo1110/spring/classify/BinaryExceptionClassifierBuilder.java:47-54 | A built classifier answers the mode's value for an added class. Without traversal, it answers the opposite when nothing of the error's lineage was added. |
| Classify.DefaultRule | src/main/java/com/github/liyibo1110/spring/classify/BinaryExceptionClassifier.java:57-60 | The default classifier's rule answers false for an unlisted class and does not walk causes. |
| Policies.Fresh | src/main/java/com/github/liyibo1110/spring/retry/context/RetryContextSupport.java:19-22 | A new context: count 0, no last error, not exhausted-only, no attributes. |
| Policies.Registered | src/main/java/com/github/liyibo1110/spring/retry/context/RetryContextSupport.java:54-58 | The error becomes the last one. A non-null error adds one to the count, a null one does not. Nothing else changes. |
| Policies.Select | src/main/java/com/github/liyibo1110/spring/retry/policy/ExceptionClassifierRetryPolicy.java:98-100 | The classifier picks one of the configured policies: a constant classifier its one policy, a subclass classifier the classification of the error. |
| Policies.DeclaredMinimum | src/main/java/com/github/liyibo1110/spring/retry/policy/CompositeRetryPolicy.java:81-89 | -1 exactly when no child declares a limit. Otherwise it is one of the declared limits and no greater than any of them. |
| Policies.Open | src/main/java/com/github/liyibo1110/spring/retry/policy/CircuitBreakerRetryPolicy.java:69-78 | Every policy's `open` gives a context of its own shape: count 0, no error, not exhausted-only. |
| Policies.OpenFrom | src/main/java/com/github/liyibo1110/spring/retry/policy/CompositeRetryPolicy.java:53-59 | The children are opened in order, one context per policy. |
| Policies.CanRetry | src/main/java/com/github/liyibo1110/spring/retry/policy/SimpleRetryPolicy.java:91-101 | `canRetry` of every policy keeps the context's shape and never touches its count, last error or exhausted-only flag. |
| Policies.CompositeFrom | src/main/java/com/github/liyibo1110/spring/retry/policy/CompositeRetryPolicy.java:31-51 | The composite loop asks the children in order and updates each child's context where it stands; children before the start are untouched. |
| Policies.CompositeCanRetry | src/main/java/com/github/liyibo1110/spring/retry/policy/CompositeRetryPolicy.java:31-51 | The loop returns what the specification gives: optimistic stops at the first yes, pessimistic asks every child and clears the answer at each no. |
| Policies.ResetCircuit | src/main/java/com/github/liyibo1110/spring/retry/policy/CircuitBreakerRetryPolicy.java:117-120 | The short-circuit count and its attribute become 0. |
| Policies.IncrementShortCircuitCount | src/main/java/com/github/liyibo1110/spring/retry/policy/CircuitBreakerRetryPolicy.java:122-125 | The short-circuit count and its attribute go up by one. |
| Policies.WithNewDelegate | src/main/java/com/github/liyibo1110/spring/retry/policy/CircuitBreakerRetryPolicy.java:127-131 | The delegate context is freshly opened and the count is reset. The window fields stay. |
| Policies.Restarted | src/main/java/com/github/liyibo1110/spring/retry/policy/CircuitBreakerRetryPolicy.java:143 | Only `start` moves, to the current time. |
| Policies.IsOpen | src/main/java/com/github/liyibo1110/spring/retry/policy/CircuitBreakerRetryPolicy.java:137-165 | `isOpen` records its answer in the `circuit.open` attribute, keeps every attribute there was, and never touches the count or last error. |
| Policies.Register | src/main/java/com/github/liyibo1110/spring/retry/policy/CompositeRetryPolicy.java:91-99 | `registerThrowable` of every policy sets the last error, counts a non-null error once on the outer context, and keeps the shape, exhausted-only flag and attributes. |
| Policies.RegisterFrom | src/main/java/com/github/liyibo1110/spring/retry/policy/CompositeRetryPolicy.java:95-96 | Every child is registered with the error, in order. |
| Policies.RegisterAll | src/main/java/com/github/liyibo1110/spring/retry/context/RetryContextSupport.java:49-58 | Registering n failures adds n to the count and leaves the last one as the last error. |
| Policies.SetNotRecoverable | src/main/java/com/github/liyibo1110/spring/retry/policy/SimpleRetryPolicy.java:72-77 | Exactly the listed classes are not recoverable; the rule walks causes with default true; the other fields are kept. |
| Policies.NewPredicatePolicy | src/main/java/com/github/liyibo1110/spring/retry/policy/PredicateRetryPolicy.java:18-21 | A null predicate is refused, and only a null one. |
| Policies.DefaultExceptionClassifier | src/main/java/com/github/liyibo1110/spring/retry/policy/ExceptionClassifierRetryPolicy.java:23 | The default classifier is well formed: it selects a never-retry policy. |
| Policies.WithPolicyMap | src/main/java/com/github/liyibo1110/spring/retry/policy/ExceptionClassifierRetryPolicy.java:25-27 | A subclass classifier over the given policies whose default is a never-retry policy. |
| Policies.FirstThrown | src/main/java/com/github/liyibo1110/spring/retry/policy/CompositeRetryPolicy.java:65-75 | None exactly when no child close threw. Otherwise it is the first error in order. |
| Policies.CloseChildren | src/main/java/com/github/liyibo1110/spring/retry/policy/CompositeRetryPolicy.java:61-76 | Every child is closed, in order, even after one throws; the first error is rethrown at the end. |
| Policies.FirstThrownExtends | src/main/java/com/github/liyibo1110/spring/retry/policy/CompositeRetryPolicy.java:70-71 | One more child keeps an earlier error, or else takes the new child's. |
| PolicyProps.RegisterAllKeepsExt | src/main/java/com/github/liyibo1110/spring/retry/context/RetryContextSupport.java:54-58 | Registration leaves the fields a plain context adds unchanged. |
| PolicyProps.MaxAttemptsAllowsFewerThanLimit | src/main/java/com/github/liyibo1110/spring/retry/policy/MaxAttemptsRetryPolicy.java:34-37 | After n failures on a fresh context, a retry is allowed exactly when n < maxAttempts. |
| PolicyProps.DefaultLimits | src/main/java/com/github/liyibo1110/spring/retry/policy/MaxAttemptsRetryPolicy.java:14-19 | The default limit is 3 for the max-attempts and the simple policy. |
| PolicyProps.NeverAllowsFirstAttempt | src/main/java/com/github/liyibo1110/spring/retry/policy/NeverRetryPolicy.java:13-21 | A never-retry policy allows the first attempt. |
| PolicyProps.NeverStaysFinished | src/main/java/com/github/liyibo1110/spring/retry/policy/NeverRetryPolicy.java:28-34 | Once finished, more registrations keep it finished. |
| PolicyProps.NeverRefusesAfterRegistration | src/main/java/com/github/liyibo1110/spring/retry/policy/NeverRetryPolicy.java:28-34 | After any registration, null included, it refuses for good; errors are still counted. |
| PolicyProps.AlwaysAllows | src/main/java/com/github/liyibo1110/spring/retry/policy/AlwaysRetryPolicy.java:11-15 | An always-retry policy allows every attempt, and still counts the failures. |
| PolicyProps.TimeoutWindowFixedAtOpen | src/main/java/com/github/liyibo1110/spring/retry/policy/TimeoutRetryPolicy.java:53-67 | A retry is allowed exactly while the elapsed time since open is at most the timeout fixed at open, whatever is set later or registered. |
| PolicyProps.DefaultTimeout | src/main/java/com/github/liyibo1110/spring/retry/policy/TimeoutRetryPolicy.java:13-19 | The default window is 1000 ms. |
| PolicyProps.PredicateFollowsLastError | src/main/java/com/github/liyibo1110/spring/retry/policy/PredicateRetryPolicy.java:23-27 | Before any failure it allows; afterwards it answers the predicate on the last failure. |
| PolicyProps.NullPredicateRefused | src/main/java/com/github/liyibo1110/spring/retry/policy/PredicateRetryPolicy.java:18-21 | A null predicate is rejected. |
| PolicyProps.BinaryClassifierFollowsLastError | src/main/java/com/github/liyibo1110/spring/retry/policy/BinaryExceptionClassifierRetryPolicy.java:26-30 | Before any failure it allows; afterwards it answers the classifier's verdict on the last failure. |
| PolicyProps.SimpleCanRetryRule | src/main/java/com/github/liyibo1110/spring/retry/policy/SimpleRetryPolicy.java:91-101 | A retry is allowed when there is no error yet, or the error is retryable and fewer than `getMaxAttempts()` failures were counted. NO_RECOVERY is set exactly when a refused error is not recoverable, and removed otherwise. |
| PolicyProps.SupplierOverridesMaxAttempts | src/main/java/com/github/liyibo1110/spring/retry/policy/SimpleRetryPolicy.java:84-89 | A set supplier decides the limit; without one, the field does. |
| PolicyProps.EmptyRuleAnswersDefault | src/main/java/com/github/liyibo1110/spring/retry/policy/SimpleRetryPolicy.java:31-32 | An empty rule with default true answers true along the whole cause chain. |
| PolicyProps.DefaultSimpleRecoversEverything | src/main/java/com/github/liyibo1110/spring/retry/policy/SimpleRetryPolicy.java:31-36 | The default simple policy never sets NO_RECOVERY. |
| PolicyProps.DefaultRuleRetriesExceptions | src/main/java/com/github/liyibo1110/spring/retry/policy/SimpleRetryPolicy.java:34-36 | The default retryable rule retries every `Exception`. |
| PolicyProps.DefaultRuleRefusesOthers | src/main/java/com/github/liyibo1110/spring/retry/policy/SimpleRetryPolicy.java:34-36 | It refuses everything with no `Exception` in its hierarchy. |
| PolicyProps.UnlistedChainIsRecoverable | src/main/java/com/github/liyibo1110/spring/retry/policy/SimpleRetryPolicy.java:72-77 | A cause chain with no listed class is recoverable. |
| PolicyProps.NotRecoverableIsExactlyListed | src/main/java/com/github/liyibo1110/spring/retry/policy/SimpleRetryPolicy.java:72-77 | After `setNotRecoverable`, an error of a listed class is not recoverable, and one with nothing listed on its chain is. |
| PolicyProps.PessimisticAsksEveryChild | src/main/java/com/github/liyibo1110/spring/retry/policy/CompositeRetryPolicy.java:43-48 | The pessimistic loop answers the conjunction of all children, each asked on its own context. |
| PolicyProps.OptimisticStopsAtFirstYes | src/main/java/com/github/liyibo1110/spring/retry/policy/CompositeRetryPolicy.java:37-42 | The optimistic loop answers yes exactly when some child does, and does not ask the children after the first yes. |
| PolicyProps.CompositePessimistic | src/main/java/com/github/liyibo1110/spring/retry/policy/CompositeRetryPolicy.java:31-51 | By default, a retry is allowed exactly when every child allows one. |
| PolicyProps.CompositeOptimistic | src/main/java/com/github/liyibo1110/spring/retry/policy/CompositeRetryPolicy.java:31-51 | In optimistic mode, a retry is allowed exactly when some child allows one. |
| PolicyProps.EmptyComposite | src/main/java/com/github/liyibo1110/spring/retry/policy/CompositeRetryPolicy.java:35-50 | With no children, pessimistic allows and optimistic refuses. |
| PolicyProps.CompositeFansOut | src/main/java/com/github/liyibo1110/spring/retry/policy/CompositeRetryPolicy.java:53-99 | `open` opens every child. `registerThrowable` registers the error with every child and counts it once on the composite. |
| PolicyProps.CompositeMaxAttempts | src/main/java/com/github/liyibo1110/spring/retry/policy/CompositeRetryPolicy.java:78-89 | The least declared limit among the children, or -1. |
| PolicyProps.ClassifierAllowsBeforeFailure | src/main/java/com/github/liyibo1110/spring/retry/policy/ExceptionClassifierRetryPolicy.java:78-81 | Before any failure the exception-classifier policy allows. |
| PolicyProps.DefaultClassifierStopsAfterOneFailure | src/main/java/com/github/liyibo1110/spring/retry/policy/ExceptionClassifierRetryPolicy.java:23 | With the default classifier, one failure stops retries. |
| PolicyProps.ClassifierOpensLazily | src/main/java/com/github/liyibo1110/spring/retry/policy/ExceptionClassifierRetryPolicy.java:97-112 | Registration classifies the error to a policy, opens its child on first selection and reuses it later. Other children are left alone, and the error is counted on the outer context. |
| PolicyProps.ClassifierDelegatesToSelected | src/main/java/com/github/liyibo1110/spring/retry/policy/ExceptionClassifierRetryPolicy.java:78-81 | After a failure, the answer is the selected policy's, on its own child context. |
| PolicyProps.PolicyMapSelects | src/main/java/com/github/liyibo1110/spring/retry/policy/ExceptionClassifierRetryPolicy.java:25-27 | A mapped class selects its policy; an error with nothing of its hierarchy mapped selects never-retry. |
| PolicyProps.SelectIgnoresMemo | src/main/java/com/github/liyibo1110/spring/retry/policy/ExceptionClassifierRetryPolicy.java:25-27 | For a policy map keyed by exception classes, selecting from the map memoised by an earlier `classify` gives the same policy as selecting from the original map, so dropping the memo changes no answer. |
| PolicyProps.CircuitOpenRefuses | src/main/java/com/github/liyibo1110/spring/retry/policy/CircuitBreakerRetryPolicy.java:56-62 | An open circuit refuses and counts one more short circuit. |
| PolicyProps.CircuitClosedDelegates | src/main/java/com/github/liyibo1110/spring/retry/policy/CircuitBreakerRetryPolicy.java:62-67 | A closed circuit resets the short count, and the delegate answers on its own context. |
| PolicyProps.CircuitClosedWhileDelegateAllows | src/main/java/com/github/liyibo1110/spring/retry/policy/CircuitBreakerRetryPolicy.java:139-145 | The circuit is closed when the delegate allows. Past the open window, the delegate context is fresh and the window restarts. |
| PolicyProps.CircuitHalfOpens | src/main/java/com/github/liyibo1110/spring/retry/policy/CircuitBreakerRetryPolicy.java:146-151 | Half-open: the delegate refuses after the reset timeout, so a fresh delegate context is opened and asked again. |
| PolicyProps.CircuitOpensOnRecentFailure | src/main/java/com/github/liyibo1110/spring/retry/policy/CircuitBreakerRetryPolicy.java:152-164 | Within the reset timeout, a refusal opens the circuit. The window restarts only for a failure inside the open window of a circuit not yet open. |
| PolicyProps.CircuitOpens | src/main/java/com/github/liyibo1110/spring/retry/policy/CircuitBreakerRetryPolicy.java:69-78 | A circuit context is global and starts now with a fresh delegate. Its timeouts come from the suppliers when set, otherwise from the fields. |
| PolicyProps.CircuitDefaults | src/main/java/com/github/liyibo1110/spring/retry/policy/CircuitBreakerRetryPolicy.java:24-27 | The default reset timeout is 20000 ms and the open window 5000 ms. |
| PolicyProps.CircuitRegistersOnBoth | src/main/java/com/github/liyibo1110/spring/retry/policy/CircuitBreakerRetryPolicy.java:86-91 | The error is recorded on the circuit context and on the delegate's; the reported retry count is the delegate's. |
| Contexts.RetryContext.constructor | src/main/java/com/github/liyibo1110/spring/retry/context/RetryContextSupport.java:19-22 | A fresh context with the given parent. |
| Contexts.RetryContext.Opened | src/main/java/com/github/liyibo1110/spring/retry/RetryPolicy.java:25 | The context any policy's `open(parent)` returns, as an object: the state `Open` gives for that policy, the given parent, and no backoff context. |
| Contexts.RetryContext.RegisterThrowable | src/main/java/com/github/liyibo1110/spring/retry/context/RetryContextSupport.java:54-58 | The state moves as `Registered` says. |
| Contexts.RetryContext.SetExhaustedOnly | src/main/java/com/github/liyibo1110/spring/retry/context/RetryContextSupport.java:34-37 | Only the exhausted-only flag is set. |
| Contexts.RetryContext.SetAttribute | src/main/java/com/github/liyibo1110/spring/retry/context/RetryContextSupport.java:10 | Only the named attribute changes. |
| Contexts.RetryContext.RemoveAttribute | src/main/java/com/github/liyibo1110/spring/retry/context/RetryContextSupport.java:10 | Only the named attribute is removed. |
| Contexts.RetryContext.SetBackOffContext | src/main/java/com/github/liyibo1110/spring/retry/support/RetryTemplate.java:151-155 | Only the back-off context changes. |
| Contexts.RetryContext.CanRetryUnder | src/main/java/com/github/liyibo1110/spring/retry/policy/CompositeRetryPolicy.java:31-51 | The object's new state and answer are those of `canRetry`. |
| Contexts.RetryContext.RegisterUnder | src/main/java/com/github/liyibo1110/spring/retry/policy/CompositeRetryPolicy.java:91-99 | The object's new state is that of `registerThrowable`. |
| Contexts.KeyedState | src/main/java/com/github/liyibo1110/spring/retry/support/DefaultRetryState.java:17-19 | The key, no refresh, no rollback classifier. |
| Contexts.StateWithRollback | src/main/java/com/github/liyibo1110/spring/retry/support/DefaultRetryState.java:21-23 | The key and the rollback classifier, no refresh. |
| Contexts.RefreshingState | src/main/java/com/github/liyibo1110/spring/retry/support/DefaultRetryState.java:25-27 | The key and the refresh flag, no classifier. |
| Contexts.CountAndExhaustedOnlyPersist | src/main/java/com/github/liyibo1110/spring/retry/context/RetryContextSupport.java:49-58 | No policy's `canRetry` or `registerThrowable` lowers the count or clears the exhausted-only flag. |
| Contexts.RollbackRule | src/main/java/com/github/liyibo1110/spring/retry/support/DefaultRetryState.java:46-51 | Without a classifier every error rolls back; with one, exactly the errors it accepts. |
| BackOffs.Sleeper.Sleep | src/main/java/com/github/liyibo1110/spring/retry/backoff/FixedBackOffPolicy.java:43-49 | Every requested delay is recorded in order; the calls named in advance are interrupted. |
| BackOffs.Draw | src/main/java/com/github/liyibo1110/spring/retry/backoff/UniformRandomBackOffPolicy.java:66 | `nextInt(bound)` answers in `[0, bound)`. |
| BackOffs.RandomSource.NextInt | src/main/java/com/github/liyibo1110/spring/retry/backoff/UniformRandomBackOffPolicy.java:19 | Each call answers the next draw below the bound and advances the source by one. |
| BackOffs.BackOffInterrupted | src/main/java/com/github/liyibo1110/spring/retry/backoff/ExponentialBackOffPolicy.java:121-124 | An interrupted sleep raises a `BackOffInterruptedException`, an `Exception` that is not an `Error`. |
| BackOffs.AtLeastOne | src/main/java/com/github/liyibo1110/spring/retry/backoff/FixedBackOffPolicy.java:29-31 | The period setters' clamp: a value below 1 becomes 1, and any other value is kept. |
| BackOffs.MultiplierAtLeastOne | src/main/java/com/github/liyibo1110/spring/retry/backoff/ExponentialBackOffPolicy.java:60-62 | A multiplier below 1 becomes 1, and any other value is kept. |
| BackOffs.WithInterval | src/main/java/com/github/liyibo1110/spring/retry/backoff/ExponentialBackOffPolicy.java:173-179 | A set initial-interval supplier replaces the interval once and is then dropped; the maximum and the multiplier are unaffected. |
| BackOffs.Truncate | src/main/java/com/github/liyibo1110/spring/retry/backoff/ExponentialBackOffPolicy.java:162-164 | The cast `(long)` of a double truncates toward zero. |
| BackOffs.Sleeps | src/main/java/com/github/liyibo1110/spring/retry/backoff/ExponentialBackOffPolicy.java:149-157 | The schedule of n delays has n entries, and none exceeds the maximum interval. |
| BackOffs.ExponentialBackOffContext.constructor | src/main/java/com/github/liyibo1110/spring/retry/backoff/ExponentialBackOffPolicy.java:135-144 | The context holds exactly the given settings. |
| BackOffs.ExponentialBackOffContext.GetInterval | src/main/java/com/github/liyibo1110/spring/retry/backoff/ExponentialBackOffPolicy.java:173-179 | The initial-interval supplier is read once, into the interval, and then cleared. |
| BackOffs.ExponentialBackOffContext.GetMaxInterval | src/main/java/com/github/liyibo1110/spring/retry/backoff/ExponentialBackOffPolicy.java:181-183 | The supplier's value when one is set, otherwise the field. |
| BackOffs.ExponentialBackOffContext.GetMultiplier | src/main/java/com/github/liyibo1110/spring/retry/backoff/ExponentialBackOffPolicy.java:166-168 | The supplier's value when one is set, otherwise the field. |
| BackOffs.ExponentialBackOffContext.GetSleepAndIncrement | src/main/java/com/github/liyibo1110/spring/retry/backoff/ExponentialBackOffPolicy.java:149-157 | The delay and the new context are one step of the schedule `NextSleep`. |
| BackOffs.ExponentialBackOffPolicy.constructor | src/main/java/com/github/liyibo1110/spring/retry/backoff/ExponentialBackOffPolicy.java:18-31 | Defaults of 100 ms, multiplier 2 and a 30 s maximum, with no suppliers. |
| BackOffs.ExponentialBackOffPolicy.SetSleeper | src/main/java/com/github/liyibo1110/spring/retry/backoff/ExponentialBackOffPolicy.java:33-35 | Only the sleeper changes. |
| BackOffs.ExponentialBackOffPolicy.SetInitialInterval | src/main/java/com/github/liyibo1110/spring/retry/backoff/ExponentialBackOffPolicy.java:56-58 | The interval, clamped to at least 1. |
| BackOffs.ExponentialBackOffPolicy.SetMultiplier | src/main/java/com/github/liyibo1110/spring/retry/backoff/ExponentialBackOffPolicy.java:60-62 | The multiplier, clamped to at least 1. |
| BackOffs.ExponentialBackOffPolicy.SetMaxInterval | src/main/java/com/github/liyibo1110/spring/retry/backoff/ExponentialBackOffPolicy.java:64-66 | The maximum, clamped to at least 1. |
| BackOffs.ExponentialBackOffPolicy.InitialIntervalSupplier | src/main/java/com/github/liyibo1110/spring/retry/backoff/ExponentialBackOffPolicy.java:68-71 | A null supplier is refused and changes nothing; otherwise it is stored. |
| BackOffs.ExponentialBackOffPolicy.MultiplierSupplier | src/main/java/com/github/liyibo1110/spring/retry/backoff/ExponentialBackOffPolicy.java:73-76 | A null supplier is refused and changes nothing; otherwise it is stored. |
| BackOffs.ExponentialBackOffPolicy.MaxIntervalSupplier | src/main/java/com/github/liyibo1110/spring/retry/backoff/ExponentialBackOffPolicy.java:78-81 | A null supplier is refused and changes nothing; otherwise it is stored. |
| BackOffs.ExponentialBackOffPolicy.Start | src/main/java/com/github/liyibo1110/spring/retry/backoff/ExponentialBackOffPolicy.java:107-111 | A new context with the policy's current fields and suppliers. |
| BackOffs.ExponentialBackOffPolicy.BackOff | src/main/java/com/github/liyibo1110/spring/retry/backoff/ExponentialBackOffPolicy.java:113-125 | The context advances one step and the sleeper is asked for that step's delay; an interrupt becomes a `BackOffInterruptedException`. |
| BackOffs.ExponentialBackOffPolicy.WithSleeper | src/main/java/com/github/liyibo1110/spring/retry/backoff/ExponentialBackOffPolicy.java:37-54 | A new policy with the new sleeper. The current values are copied through the clamping setters, and the suppliers are read once and not carried over. |
| BackOffs.FixedBackOffPolicy.constructor | src/main/java/com/github/liyibo1110/spring/retry/backoff/FixedBackOffPolicy.java:13-15 | A period of 1000 ms. |
| BackOffs.FixedBackOffPolicy.SetSleeper | src/main/java/com/github/liyibo1110/spring/retry/backoff/FixedBackOffPolicy.java:25-27 | Only the sleeper changes. |
| BackOffs.FixedBackOffPolicy.SetBackOffPeriod | src/main/java/com/github/liyibo1110/spring/retry/backoff/FixedBackOffPolicy.java:29-31 | The period, clamped to at least 1. |
| BackOffs.FixedBackOffPolicy.BackOffPeriodSupplier | src/main/java/com/github/liyibo1110/spring/retry/backoff/FixedBackOffPolicy.java:33-36 | A null supplier is refused. Otherwise its value, unclamped, becomes the period. |
| BackOffs.FixedBackOffPolicy.BackOff | src/main/java/com/github/liyibo1110/spring/retry/backoff/FixedBackOffPolicy.java:42-50 | One sleep of the period; an interrupt becomes a `BackOffInterruptedException`. |
| BackOffs.FixedBackOffPolicy.WithSleeperAsWritten | src/main/java/com/github/liyibo1110/spring/retry/backoff/FixedBackOffPolicy.java:17-23 | As written: the copy is built and dropped, and the caller receives null. |
| BackOffs.FixedBackOffPolicy.WithSleeper | src/main/java/com/github/liyibo1110/spring/retry/backoff/FixedBackOffPolicy.java:17-23 | As intended: a new policy with the same period and the new sleeper. |
| BackOffs.UniformRandomBackOffPolicy.constructor | src/main/java/com/github/liyibo1110/spring/retry/backoff/UniformRandomBackOffPolicy.java:15-20 | Bounds of 500 and 1500 ms. |
| BackOffs.UniformRandomBackOffPolicy.SetSleeper | src/main/java/com/github/liyibo1110/spring/retry/backoff/UniformRandomBackOffPolicy.java:31-33 | Only the sleeper changes. |
| BackOffs.UniformRandomBackOffPolicy.SetMinBackOffPeriod | src/main/java/com/github/liyibo1110/spring/retry/backoff/UniformRandomBackOffPolicy.java:35-37 | The lower bound, clamped to at least 1. |
| BackOffs.UniformRandomBackOffPolicy.SetMaxBackOffPeriod | src/main/java/com/github/liyibo1110/spring/retry/backoff/UniformRandomBackOffPolicy.java:48-50 | The upper bound, clamped to at least 1. |
| BackOffs.UniformRandomBackOffPolicy.MinBackOffPeriodSupplier | src/main/java/com/github/liyibo1110/spring/retry/backoff/UniformRandomBackOffPolicy.java:39-42 | A null supplier is refused. Otherwise its value, unclamped, becomes the lower bound. |
| BackOffs.UniformRandomBackOffPolicy.MaxBackOffPeriodSupplier | src/main/java/com/github/liyibo1110/spring/retry/backoff/UniformRandomBackOffPolicy.java:52-55 | A null supplier is refused. Otherwise its value, unclamped, becomes the upper bound. |
| BackOffs.UniformRandomBackOffPolicy.BackOff | src/main/java/com/github/liyibo1110/spring/retry/backoff/UniformRandomBackOffPolicy.java:61-72 | One sleep of `min + delta`. `delta` is drawn below `max - min` when `max > min`, with one draw taken; otherwise it is 0 and no draw is taken. |
| BackOffs.UniformRandomBackOffPolicy.WithSleeper | src/main/java/com/github/liyibo1110/spring/retry/backoff/UniformRandomBackOffPolicy.java:22-29 | A new policy with the same bounds and the new sleeper. |
| BackOffs.StartOf | src/main/java/com/github/liyibo1110/spring/retry/backoff/StatelessBackOffPolicy.java:11-14 | Only the exponential policy starts a context; the stateless ones start none. |
| BackOffs.StartWith | src/main/java/com/github/liyibo1110/spring/retry/backoff/StatelessBackOffPolicy.java:11-14 | The object form of `start`: null exactly for the stateless policies, otherwise a new context with the policy's settings. |
| BackOffs.BackOffWith | src/main/java/com/github/liyibo1110/spring/retry/backoff/NoBackOffPolicy.java:10-13 | `backOff` as the template calls it. The no-op policy sleeps nothing. Otherwise, the sleeper records the delay, the random source the draws taken, and the exponential context its next state. |
| BackOffProps.SleepIsCapped | src/main/java/com/github/liyibo1110/spring/retry/backoff/ExponentialBackOffPolicy.java:149-157 | A delay is the current interval capped at the maximum, so it never exceeds the maximum. |
| BackOffProps.StepKeepsSettings | src/main/java/com/github/liyibo1110/spring/retry/backoff/ExponentialBackOffPolicy.java:149-183 | A step keeps the maximum and the multiplier, and drops the initial-interval supplier. |
| BackOffProps.IntervalAdvancesOnlyUnderCap | src/main/java/com/github/liyibo1110/spring/retry/backoff/ExponentialBackOffPolicy.java:152-155 | An interval within the maximum is multiplied and truncated; an interval above it stays. |
| BackOffProps.IntervalNeverShrinks | src/main/java/com/github/liyibo1110/spring/retry/backoff/ExponentialBackOffPolicy.java:162-164 | With a multiplier of at least 1, the interval never shrinks. |
| BackOffProps.SleepsNeverShrink | src/main/java/com/github/liyibo1110/spring/retry/backoff/ExponentialBackOffPolicy.java:149-164 | With a non-negative first interval and a multiplier of at least 1, every delay of the schedule is at least the one before it. |
| BackOffProps.CappedScheduleIsConstant | src/main/java/com/github/liyibo1110/spring/retry/backoff/ExponentialBackOffPolicy.java:152-153 | Once the interval is above the maximum, every delay equals the maximum. |
| BackOffProps.InitialSupplierReadOnce | src/main/java/com/github/liyibo1110/spring/retry/backoff/ExponentialBackOffPolicy.java:173-179 | The schedule with an initial-interval supplier equals the schedule starting from the supplier's value. |
| BackOffProps.ExponentialDefaults | src/main/java/com/github/liyibo1110/spring/retry/backoff/ExponentialBackOffPolicy.java:18-21 | The defaults are 100 ms, multiplier 2 and a 30000 ms maximum. |
| BackOffProps.DoublingToTheCap | src/main/java/com/github/liyibo1110/spring/retry/backoff/ExponentialBackOffPolicy.java:149-164 | A worked schedule: 100, 200, 400, 800, 1000, 1000. |
| BackOffProps.RandomDelayRange | src/main/java/com/github/liyibo1110/spring/retry/backoff/UniformRandomBackOffPolicy.java:64-67 | A uniform delay lies in `[min, max)` when `max > min`, and is `min` otherwise. |
| BackOffProps.StatelessStartsNothing | src/main/java/com/github/liyibo1110/spring/retry/backoff/StatelessBackOffPolicy.java:10-19 | The stateless policies start no context, and the no-op policy asks for no sleep and no draw. |
| BackOffBuilder.BackOffPolicyBuilder.constructor | src/main/java/com/github/liyibo1110/spring/retry/backoff/BackOffPolicyBuilder.java:10-28 | A delay of 1000 ms; everything else unset. |
| BackOffBuilder.BackOffPolicyBuilder.Delay | src/main/java/com/github/liyibo1110/spring/retry/backoff/BackOffPolicyBuilder.java:34-37 | Only the delay changes. |
| BackOffBuilder.BackOffPolicyBuilder.MaxDelay | src/main/java/com/github/liyibo1110/spring/retry/backoff/BackOffPolicyBuilder.java:39-42 | Only the maximum delay changes. |
| BackOffBuilder.BackOffPolicyBuilder.Multiplier | src/main/java/com/github/liyibo1110/spring/retry/backoff/BackOffPolicyBuilder.java:44-47 | Only the multiplier changes. |
| BackOffBuilder.BackOffPolicyBuilder.Random | src/main/java/com/github/liyibo1110/spring/retry/backoff/BackOffPolicyBuilder.java:49-52 | Only the random flag changes. |
| BackOffBuilder.BackOffPolicyBuilder.WithSleeper | src/main/java/com/github/liyibo1110/spring/retry/backoff/BackOffPolicyBuilder.java:54-57 | Only the sleeper changes. |
| BackOffBuilder.BackOffPolicyBuilder.DelaySupplier | src/main/java/com/github/liyibo1110/spring/retry/backoff/BackOffPolicyBuilder.java:59-62 | Only the delay supplier changes; null is stored. |
| BackOffBuilder.BackOffPolicyBuilder.MaxDelaySupplier | src/main/java/com/github/liyibo1110/spring/retry/backoff/BackOffPolicyBuilder.java:64-67 | Only the maximum-delay supplier changes. |
| BackOffBuilder.BackOffPolicyBuilder.MultiplierSupplier | src/main/java/com/github/liyibo1110/spring/retry/backoff/BackOffPolicyBuilder.java:69-72 | Only the multiplier supplier changes. |
| BackOffBuilder.BackOffPolicyBuilder.RandomSupplier | src/main/java/com/github/liyibo1110/spring/retry/backoff/BackOffPolicyBuilder.java:74-77 | Only the random supplier changes. |
| BackOffBuilder.BackOffPolicyBuilder.Build | src/main/java/com/github/liyibo1110/spring/retry/backoff/BackOffPolicyBuilder.java:79-133 | A new policy whose settings are those the choice rules give; the exponential one is randomised exactly when `isRandom` holds. |
| BackOffBuilder.BackOffPolicyBuilder.BuildExponential | src/main/java/com/github/liyibo1110/spring/retry/backoff/BackOffPolicyBuilder.java:81-103 | The exponential branch: the clamped settings, then each supplier that is set. A maximum delay not above the delay gives the 30 s default. |
| BackOffBuilder.BackOffPolicyBuilder.BuildUniform | src/main/java/com/github/liyibo1110/spring/retry/backoff/BackOffPolicyBuilder.java:105-118 | The uniform branch: each bound is its supplier's value when set, otherwise the clamped value. |
| BackOffBuilder.BackOffPolicyBuilder.BuildFixed | src/main/java/com/github/liyibo1110/spring/retry/backoff/BackOffPolicyBuilder.java:120-127 | The fixed branch: the delay supplier takes precedence over the clamped delay. |
| BackOffBuilder.NewDefaultPolicy | src/main/java/com/github/liyibo1110/spring/retry/backoff/BackOffPolicyBuilder.java:30-32 | The default policy is a fixed back-off of 1000 ms on the default sleeper. |
| BackOffBuilder.ChoiceRules | src/main/java/com/github/liyibo1110/spring/retry/backoff/BackOffPolicyBuilder.java:81-127 | Exponential exactly when a multiplier is set and is positive or has a supplier. Otherwise uniform exactly when the maximum delay exceeds the delay, otherwise fixed. Some pausing policy is always built. |
| BackOffBuilder.SupplierAloneIsNotExponential | src/main/java/com/github/liyibo1110/spring/retry/backoff/BackOffPolicyBuilder.java:81 | A multiplier supplier alone, or a non-positive multiplier without one, does not give the exponential family. |
| BackOffBuilder.ExponentialCap | src/main/java/com/github/liyibo1110/spring/retry/backoff/BackOffPolicyBuilder.java:95-97 | The exponential maximum is the maximum delay when it exceeds the delay, otherwise 30 s. Without a supplier, no delay of the schedule exceeds it. |
| BackOffBuilder.UniformBetweenDelays | src/main/java/com/github/liyibo1110/spring/retry/backoff/BackOffPolicyBuilder.java:105-118 | Without suppliers, the uniform policy pauses at least the delay and less than the maximum delay. |
| BackOffBuilder.FixedDelayPrecedence | src/main/java/com/github/liyibo1110/spring/retry/backoff/BackOffPolicyBuilder.java:120-124 | The fixed period is the delay supplier's value when set, otherwise the delay clamped to at least 1. |
| BackOffBuilder.SleeperPassedOn | src/main/java/com/github/liyibo1110/spring/retry/backoff/BackOffPolicyBuilder.java:100-126 | Every built policy sleeps on the builder's sleeper when one was given, otherwise on its own default. |
| BackOffBuilder.DefaultIsFixed | src/main/java/com/github/liyibo1110/spring/retry/backoff/BackOffPolicyBuilder.java:30-32 | The default builder gives a fixed pause of 1000 ms. |
| Caches.CapacityExceeded | src/main/java/com/github/liyibo1110/spring/retry/policy/MapRetryContextCache.java:46-50 | A full cache raises a `RetryCacheCapacityExceededException`, an `Exception` that is not an `Error`. |
| Caches.MapRetryContextCache.constructor | src/main/java/com/github/liyibo1110/spring/retry/policy/MapRetryContextCache.java:21-23 | An empty cache with capacity 4096. |
| Caches.MapRetryContextCache.WithCapacity | src/main/java/com/github/liyibo1110/spring/retry/policy/MapRetryContextCache.java:25-28 | An empty cache with the given capacity. |
| Caches.MapRetryContextCache.SetCapacity | src/main/java/com/github/liyibo1110/spring/retry/policy/MapRetryContextCache.java:30-32 | Only the capacity changes. |
| Caches.MapRetryContextCache.Get | src/main/java/com/github/liyibo1110/spring/retry/policy/MapRetryContextCache.java:39-42 | The stored context exactly when the key is present, otherwise null. |
| Caches.MapRetryContextCache.Put | src/main/java/com/github/liyibo1110/spring/retry/policy/MapRetryContextCache.java:44-52 | Refused, with nothing changed, exactly when the map already holds `capacity` entries, even for a key it holds. Otherwise the entry is stored. |
| Caches.MapRetryContextCache.Remove | src/main/java/com/github/liyibo1110/spring/retry/policy/MapRetryContextCache.java:54-57 | Only that key is removed. |
| Caches.MapRetryContextCache.PutAll | src/main/java/com/github/liyibo1110/spring/retry/policy/MapRetryContextCache.java:44-52 | Putting distinct keys into an empty cache: exactly the puts after the first `capacity` ones fail. |
| Caches.SoftReferenceMapRetryContextCache.constructor | src/main/java/com/github/liyibo1110/spring/retry/policy/SoftReferenceMapRetryContextCache.java:20-22 | An empty cache with capacity 4096. |
| Caches.SoftReferenceMapRetryContextCache.WithCapacity | src/main/java/com/github/liyibo1110/spring/retry/policy/SoftReferenceMapRetryContextCache.java:24-27 | An empty cache with the given capacity. |
| Caches.SoftReferenceMapRetryContextCache.Collect | src/main/java/com/github/liyibo1110/spring/retry/policy/SoftReferenceMapRetryContextCache.java:17 | The garbage collector may clear any stored reference; nothing else changes. |
| Caches.SoftReferenceMapRetryContextCache.ContainsKey | src/main/java/com/github/liyibo1110/spring/retry/policy/SoftReferenceMapRetryContextCache.java:33-40 | True exactly for a stored key whose referent is alive. A cleared entry is purged. |
| Caches.SoftReferenceMapRetryContextCache.Get | src/main/java/com/github/liyibo1110/spring/retry/policy/SoftReferenceMapRetryContextCache.java:42-45 | A live entry gives its context and a cleared one null; a missing key dereferences null. |
| Caches.SoftReferenceMapRetryContextCache.Put | src/main/java/com/github/liyibo1110/spring/retry/policy/SoftReferenceMapRetryContextCache.java:47-54 | The same capacity rule; cleared entries that were not purged still count. |
| Caches.SoftReferenceMapRetryContextCache.Remove | src/main/java/com/github/liyibo1110/spring/retry/policy/SoftReferenceMapRetryContextCache.java:56-59 | Only that key is removed. |
| Sync.RetrySynchronizationManager.constructor | src/main/java/com/github/liyibo1110/spring/retry/support/RetrySynchronizationManager.java:17 | At first no context is current. |
| Sync.RetrySynchronizationManager.Register | src/main/java/com/github/liyibo1110/spring/retry/support/RetrySynchronizationManager.java:37-48 | The context becomes current and the previous one is returned. |
| Sync.RetrySynchronizationManager.Clear | src/main/java/com/github/liyibo1110/spring/retry/support/RetrySynchronizationManager.java:53-66 | The current context is returned and its parent becomes current. With none current, none stays current. |
| Sync.RetrySynchronizationManager.RegisterThenClear | src/main/java/com/github/liyibo1110/spring/retry/support/RetrySynchronizationManager.java:37-66 | After `register(c)` then `clear()`, `c`'s parent is current. The previous context is restored exactly when it is `c`'s parent. |
| Stats.Bump | src/main/java/com/github/liyibo1110/spring/retry/stats/DefaultRetryStatistics.java:61-84 | Each `incrementX` raises its own counter by one and leaves the other four unchanged. |
| Stats.TallyCounts | src/main/java/com/github/liyibo1110/spring/retry/stats/DefaultRetryStatistics.java:61-84 | After any sequence of increments, each counter has grown by exactly the number of its own increments, so no counter ever decreases. |
| Stats.TallyAppend | src/main/java/com/github/liyibo1110/spring/retry/stats/DefaultRetryStatistics.java:61-84 | Increments done in two batches give the same counters as doing them all in one batch. |
| Stats.DefaultRetryStatistics.constructor | src/main/java/com/github/liyibo1110/spring/retry/stats/DefaultRetryStatistics.java:14-25 | A named statistics object with all five counters at zero and no attributes. |
| Stats.DefaultRetryStatistics.Unnamed | src/main/java/com/github/liyibo1110/spring/retry/stats/DefaultRetryStatistics.java:21 | The package-private constructor: the name is null and all counters are zero. |
| Stats.DefaultRetryStatistics.Count | src/main/java/com/github/liyibo1110/spring/retry/stats/DefaultRetryStatistics.java:27-50 | Each getter returns its own counter. |
| Stats.DefaultRetryStatistics.SetName | src/main/java/com/github/liyibo1110/spring/retry/stats/DefaultRetryStatistics.java:57-59 | Only the name changes. |
| Stats.DefaultRetryStatistics.Increment | src/main/java/com/github/liyibo1110/spring/retry/stats/DefaultRetryStatistics.java:61-84 | One counter goes up by one; the name, the other counters and the attributes are unchanged. |
| Stats.DefaultRetryStatistics.SetAttribute | src/main/java/com/github/liyibo1110/spring/retry/stats/DefaultRetryStatistics.java:13 | The inherited `AttributeAccessorSupport.setAttribute` changes only that attribute. |
| Stats.Recorded | src/main/java/com/github/liyibo1110/spring/retry/stats/DefaultStatisticsRepository.java:32-66 | Recording on a name adds that name, and only that name, to the repository's keys. |
| Stats.RecordedTwice | src/main/java/com/github/liyibo1110/spring/retry/stats/DefaultStatisticsRepository.java:32-66 | Recording on one name in two steps gives the same result as recording once with all the increments. |
| Stats.RecordedAfterCreation | src/main/java/com/github/liyibo1110/spring/retry/stats/DefaultStatisticsRepository.java:60-66 | Creating the entry on first use does not change what is then recorded on it. |
| Stats.DefaultStatisticsRepository.constructor | src/main/java/com/github/liyibo1110/spring/retry/stats/DefaultStatisticsRepository.java:15-16 | An empty repository that uses the default factory. |
| Stats.DefaultStatisticsRepository.SetRetryStatisticsFactory | src/main/java/com/github/liyibo1110/spring/retry/stats/DefaultStatisticsRepository.java:18-20 | Only the factory changes. |
| Stats.DefaultStatisticsRepository.FindOne | src/main/java/com/github/liyibo1110/spring/retry/stats/DefaultStatisticsRepository.java:22-25 | Null exactly for a name that was never added; otherwise that name's entry. |
| Stats.DefaultStatisticsRepository.FindAll | src/main/java/com/github/liyibo1110/spring/retry/stats/DefaultStatisticsRepository.java:27-30 | Every entry held, and nothing else. |
| Stats.DefaultStatisticsRepository.GetStatistics | src/main/java/com/github/liyibo1110/spring/retry/stats/DefaultStatisticsRepository.java:60-66 | An existing entry is returned unchanged. A missing one is created fresh by the factory, with zero counters. The default factory's null raises a `NullPointerException` and leaves the repository unchanged. |
| Stats.DefaultStatisticsRepository.Add | src/main/java/com/github/liyibo1110/spring/retry/stats/DefaultStatisticsRepository.java:32-55 | The entry of the name, created on first use and never replaced, gains one in the chosen counter. No other entry changes. With the default factory, a new name raises a `NullPointerException`. |
| Stats.DefaultStatisticsRepository.IncrementEntry | src/main/java/com/github/liyibo1110/spring/retry/stats/DefaultStatisticsRepository.java:32-55 | Incrementing one held entry changes no other entry. |
| Stats.Carried | src/main/java/com/github/liyibo1110/spring/retry/stats/StatisticsListener.java:39-43 | Exactly the listed keys that the context has are copied, with the context's values. All other attributes are kept. |
| Stats.CloseRules | src/main/java/com/github/liyibo1110/spring/retry/stats/StatisticsListener.java:26-35 | A start is counted exactly when the context is not exhausted or is global. At most one outcome is counted, with recovery before abort before completion. An error is never counted, and something is always counted. |
| Stats.ErrorRules | src/main/java/com/github/liyibo1110/spring/retry/stats/StatisticsListener.java:52-56 | `onError` counts one error, plus a start exactly when the context is stateful. |
| Stats.CloseRaises | src/main/java/com/github/liyibo1110/spring/retry/stats/StatisticsListener.java:26-35 | How `close` changes each of the five counters of the named entry. |
| Stats.StatisticsListener.constructor | src/main/java/com/github/liyibo1110/spring/retry/stats/StatisticsListener.java:18-20 | The listener keeps the repository it is given. |
| Stats.StatisticsListener.Close | src/main/java/com/github/liyibo1110/spring/retry/stats/StatisticsListener.java:22-46 | An unnamed context changes nothing. Otherwise the counts of `CloseRules` are recorded and the circuit attributes are copied. A new name under the default factory raises on the first count and changes nothing. |
| Stats.StatisticsListener.CarryCircuit | src/main/java/com/github/liyibo1110/spring/retry/stats/StatisticsListener.java:36-44 | Only the named entry's attributes change: they gain the circuit attributes that the context has. |
| Stats.StatisticsListener.CountAll | src/main/java/com/github/liyibo1110/spring/retry/stats/StatisticsListener.java:28-35 | The `add` calls run in order, and when the first one raises, nothing is recorded. Existing entries are never replaced. |
| Stats.StatisticsListener.CopyCircuit | src/main/java/com/github/liyibo1110/spring/retry/stats/StatisticsListener.java:39-43 | The loop over `CIRCUIT_OPEN` and `CIRCUIT_SHORT_COUNT` copies each key that the context has. |
| Stats.StatisticsListener.OnError | src/main/java/com/github/liyibo1110/spring/retry/stats/StatisticsListener.java:48-58 | An unnamed context changes nothing. Otherwise the counts of `ErrorRules` are recorded on the name, with the same null-factory failure. |
| Execution.OpenCalls | src/main/java/com/github/liyibo1110/spring/retry/support/RetryTemplate.java:379-384 | `open` is called on at most as many listeners as there are. |
| Execution.OpenCallsStopAtRefusal | src/main/java/com/github/liyibo1110/spring/retry/support/RetryTemplate.java:379-384 | When listener `k` is the first to refuse, `open` is called on exactly the first `k + 1` listeners and the run does not start. |
| Execution.OpenCallsWhenAllApprove | src/main/java/com/github/liyibo1110/spring/retry/support/RetryTemplate.java:379-384 | When every listener approves, `open` is called on all of them. |
| Execution.MarkedWithKey | src/main/java/com/github/liyibo1110/spring/retry/support/RetryTemplate.java:300-301 | The context has a `STATE_KEY` attribute exactly when the key is not null, holding that key. Setting an attribute to null removes it, as `RetryContextSupport` inherits from Spring's attribute support. No other attribute changes. |
| Execution.OpenStage | src/main/java/com/github/liyibo1110/spring/retry/support/RetryTemplate.java:268-309 | The context that `open` yields, whether fresh (marked with the state key only when the key is not null, since a null attribute value removes the attribute; registered at once when global) or a cached one with its end markers removed, has the shape its policy needs. |
| Execution.Gate | src/main/java/com/github/liyibo1110/spring/retry/support/RetryTemplate.java:162 | The loop test `canRetry && !isExhaustedOnly` keeps the context's shape. It changes no retry count or last error, only the policy's own bookkeeping. |
| Execution.Record | src/main/java/com/github/liyibo1110/spring/retry/support/RetryTemplate.java:172-183 | The policy's `registerThrowable`, `registerContext` and the listeners' `onError` keep the run ready. They make no call of the callback. |
| Execution.BackOffThenRethrow | src/main/java/com/github/liyibo1110/spring/retry/support/RetryTemplate.java:185-209 | The backoff and the rethrow test either end the run or continue it ready and with the same number of calls. |
| Execution.AfterFailure | src/main/java/com/github/liyibo1110/spring/retry/support/RetryTemplate.java:172-209 | The catch block either ends the run or continues it ready and with the same number of calls. |
| Execution.Called | src/main/java/com/github/liyibo1110/spring/retry/support/RetryTemplate.java:166-209 | A call either ends the run, or continues it ready with exactly one more call counted. |
| Execution.Invoke | src/main/java/com/github/liyibo1110/spring/retry/support/RetryTemplate.java:163-209 | The loop body continues only after one more call of the callback, so the loop ends. |
| Execution.Iteration | src/main/java/com/github/liyibo1110/spring/retry/support/RetryTemplate.java:162-210 | One turn of the loop either ends the run or continues it ready with exactly one more call. |
| Execution.Prepared | src/main/java/com/github/liyibo1110/spring/retry/support/RetryTemplate.java:142-155 | After `MAX_ATTEMPTS` is set and the backoff context is started, the run is ready for the loop. |
| Templates.RetryTemplate.constructor | src/main/java/com/github/liyibo1110/spring/retry/support/RetryTemplate.java:46-55 | No backoff, a three-attempt `SimpleRetryPolicy`, no listeners, an empty map cache of the default capacity, and no rethrow of the last exception. |
| Templates.RetryTemplate.SetRetryPolicy | src/main/java/com/github/liyibo1110/spring/retry/support/RetryTemplate.java:91-93 | Only the retry policy changes. |
| Templates.RetryTemplate.SetBackOffPolicy | src/main/java/com/github/liyibo1110/spring/retry/support/RetryTemplate.java:87-89 | Only the backoff policy changes. |
| Templates.RetryTemplate.SetRetryContextCache | src/main/java/com/github/liyibo1110/spring/retry/support/RetryTemplate.java:61-63 | Only the cache changes. |
| Templates.RetryTemplate.SetThrowLastExceptionOnExhausted | src/main/java/com/github/liyibo1110/spring/retry/support/RetryTemplate.java:57-59 | Only the flag changes. |
| Templates.RetryTemplate.SetListeners | src/main/java/com/github/liyibo1110/spring/retry/support/RetryTemplate.java:65-68 | The listeners become a copy of the given ones. |
| Templates.RetryTemplate.RegisterListenerAt | src/main/java/com/github/liyibo1110/spring/retry/support/RetryTemplate.java:74-81 | An index at or past the end appends the listener, and a smaller one inserts it before that index. A negative index is refused, as `List.add` refuses it, and changes nothing. |
| Templates.RetryTemplate.RegisterListener | src/main/java/com/github/liyibo1110/spring/retry/support/RetryTemplate.java:70-72 | The listener is appended. |
| Templates.RetryTemplate.DoOpenInterceptors | src/main/java/com/github/liyibo1110/spring/retry/support/RetryTemplate.java:379-384 | Running exactly when every listener approves. `open` is called in registration order and stops after the first refusal. |
| Templates.RetryTemplate.NotifyBackwards | src/main/java/com/github/liyibo1110/spring/retry/support/RetryTemplate.java:386-402 | `onSuccess`, `onError` and `close` reach every listener, last registered first. |
| Templates.RetryTemplate.RegisterContextOf | src/main/java/com/github/liyibo1110/spring/retry/support/RetryTemplate.java:253-266 | `registerContext`: a stateless run or a null key changes nothing. A retried context whose key left the cache raises a `RetryException`. A full cache refuses the `put`. |
| Templates.RetryTemplate.OpenFresh | src/main/java/com/github/liyibo1110/spring/retry/support/RetryTemplate.java:297-305 | A fresh context of the policy, whose parent is the current context, carries the state key as an attribute when the key is not null and no such attribute when it is null. It is registered at once when it is global. |
| Templates.RetryTemplate.Reuse | src/main/java/com/github/liyibo1110/spring/retry/support/RetryTemplate.java:280-294 | The cached context itself, with `CLOSED`, `EXHAUSTED` and `RECOVERED` removed and nothing else changed. |
| Templates.RetryTemplate.OpenContext | src/main/java/com/github/liyibo1110/spring/retry/support/RetryTemplate.java:268-309 | `open` gives what `OpenStage` describes. A reused context is the cached object, and any other context is fresh. |
| Templates.RetryTemplate.Permits | src/main/java/com/github/liyibo1110/spring/retry/support/RetryTemplate.java:162 | The loop test equals `Gate`. |
| Templates.RetryTemplate.Pause | src/main/java/com/github/liyibo1110/spring/retry/support/RetryTemplate.java:186-195 | The backoff's sleep, draws and clock are as `Paused` describes. |
| Templates.RetryTemplate.MarkExhausted | src/main/java/com/github/liyibo1110/spring/retry/support/RetryTemplate.java:318-320 | The `EXHAUSTED` flag is set, and the key of a stateful, non-global run leaves the cache. |
| Templates.RetryTemplate.HandleExhausted | src/main/java/com/github/liyibo1110/spring/retry/support/RetryTemplate.java:315-366 | `handleRetryExhausted` behaves as `Exhaust`. |
| Templates.RetryTemplate.RethrowOrLeave | src/main/java/com/github/liyibo1110/spring/retry/support/RetryTemplate.java:200-209 | `shouldRethrow` and the global `break` behave as `Rethrow`. |
| Templates.RetryTemplate.RecordFailure | src/main/java/com/github/liyibo1110/spring/retry/support/RetryTemplate.java:177-183 | `registerThrowable` and `onError` behave as `Record`. |
| Templates.RetryTemplate.GateThenPause | src/main/java/com/github/liyibo1110/spring/retry/support/RetryTemplate.java:186-195 | The backoff runs only when the policy still allows a retry. |
| Templates.RetryTemplate.BackOffThenRethrowOrLeave | src/main/java/com/github/liyibo1110/spring/retry/support/RetryTemplate.java:185-209 | Behaves as `BackOffThenRethrow`. |
| Templates.RetryTemplate.OnFailure | src/main/java/com/github/liyibo1110/spring/retry/support/RetryTemplate.java:172-209 | The catch block behaves as `AfterFailure`. |
| Templates.RetryTemplate.FailedCall | src/main/java/com/github/liyibo1110/spring/retry/support/RetryTemplate.java:166-209 | A failing call behaves as `Called` with `Throws`. |
| Templates.RetryTemplate.SucceededCall | src/main/java/com/github/liyibo1110/spring/retry/support/RetryTemplate.java:166-171 | A returning call behaves as `Called` with `Returns`. |
| Templates.RetryTemplate.CallOnce | src/main/java/com/github/liyibo1110/spring/retry/support/RetryTemplate.java:163-209 | The loop body behaves as `Invoke`. |
| Templates.RetryTemplate.TakeTurn | src/main/java/com/github/liyibo1110/spring/retry/support/RetryTemplate.java:162-210 | One turn behaves as `Iteration`. |
| Templates.RetryTemplate.Prepare | src/main/java/com/github/liyibo1110/spring/retry/support/RetryTemplate.java:142-155 | `MAX_ATTEMPTS` and the backoff context are set as `Prepared` describes. |
| Templates.RetryTemplate.RetryLoop | src/main/java/com/github/liyibo1110/spring/retry/support/RetryTemplate.java:162-216 | The `while` loop ends as `Loop` does. |
| Templates.RetryTemplate.TryBlock | src/main/java/com/github/liyibo1110/spring/retry/support/RetryTemplate.java:135-218 | The try block behaves as `Attempt`. |
| Templates.RetryTemplate.Close | src/main/java/com/github/liyibo1110/spring/retry/support/RetryTemplate.java:219-242 | The finally block's `close` and the listeners' `close` behave as `Finish`. |
| Templates.RetryTemplate.RunRegistered | src/main/java/com/github/liyibo1110/spring/retry/support/RetryTemplate.java:130-223 | The context is current during the run. Afterwards its parent is current, or the context itself when the script ran out. |
| Templates.RetryTemplate.TryThenClose | src/main/java/com/github/liyibo1110/spring/retry/support/RetryTemplate.java:135-221 | The try block followed by the finally block. |
| Templates.RetryTemplate.DoExecute | src/main/java/com/github/liyibo1110/spring/retry/support/RetryTemplate.java:118-224 | The verdict, context, devices, cache keys and listener events of `doExecute` are those of `Execute`. When `open` raises, the synchronization manager is left as it was. Otherwise the context's parent becomes current: for a fresh context that is the caller's current context, for a reused cached context the parent from its first `open`. A script that runs out leaves the context current. |
| TemplateProps.WrapRules | src/main/java/com/github/liyibo1110/spring/retry/support/RetryTemplate.java:408-417 | Errors and exceptions pass unchanged. Any other throwable, or null, becomes the cause of a `RetryException`. The result is always an error or an exception, and wrapping is idempotent. |
| TemplateProps.BackwardsTellsNewestFirst | src/main/java/com/github/liyibo1110/spring/retry/support/RetryTemplate.java:386-402 | The listener registered last is told first. |
| TemplateProps.BackwardsIsReversed | src/main/java/com/github/liyibo1110/spring/retry/support/RetryTemplate.java:386-402 | Every listener is told exactly once, in reverse registration order. |
| TemplateProps.VetoTerminates | src/main/java/com/github/liyibo1110/spring/retry/support/RetryTemplate.java:135-139 | A listener refusing `open` stops the run with a `TerminatedRetryException`. The callback is never called and nothing sleeps. `open` reached exactly the listeners up to the refusal, and every listener's `close` still runs. |
| TemplateProps.FailingTurn | src/main/java/com/github/liyibo1110/spring/retry/support/RetryTemplate.java:162-210 | A failing call below the attempt limit registers its error, and the loop goes round again. |
| TemplateProps.ReturningTurn | src/main/java/com/github/liyibo1110/spring/retry/support/RetryTemplate.java:166-171 | A returning call ends the run with its value. |
| TemplateProps.LoopSucceedsAfterFailures | src/main/java/com/github/liyibo1110/spring/retry/support/RetryTemplate.java:162-210 | `n` failures then a success, with `n` below the limit, return that value after exactly `n + 1` calls. |
| TemplateProps.LoopExhaustsAfterFailures | src/main/java/com/github/liyibo1110/spring/retry/support/RetryTemplate.java:162-216 | Failing as often as the limit allows takes exactly that many calls. The run then ends exhausted, raising the last error or recovering. |
| TemplateProps.StatelessStart | src/main/java/com/github/liyibo1110/spring/retry/support/RetryTemplate.java:125-155 | A stateless `open` never fails. The prepared run starts with no calls and no registered failures. |
| TemplateProps.StatelessSucceedsAfterFailures | src/main/java/com/github/liyibo1110/spring/retry/support/RetryTemplate.java:118-224 | Under `MaxAttemptsRetryPolicy(M)`, `N < M` failures then a success return the value after exactly `N + 1` calls. The context ends closed. |
| TemplateProps.StatelessExhaustsAfterFailures | src/main/java/com/github/liyibo1110/spring/retry/support/RetryTemplate.java:118-224 | `M` failures under a limit of `M` take exactly `M` calls. The run then ends exhausted and closed, raising the last error (wrapped when needed) unless recovery gives a value. |
| TemplateProps.BackOffOnlyWhenPermitted | src/main/java/com/github/liyibo1110/spring/retry/support/RetryTemplate.java:185-195 | Nothing sleeps unless the policy still permits a retry; when it does, the backoff sleeps once. An interrupted sleep ends the run with `BackOffInterruptedException` and no recovery. |
| TemplateProps.BackOffContextKept | src/main/java/com/github/liyibo1110/spring/retry/support/RetryTemplate.java:145-155 | A cached context brings its backoff context back, and that context is not restarted. |
| TemplateProps.RollbackRethrowsAfterOneCall | src/main/java/com/github/liyibo1110/spring/retry/support/RetryTemplate.java:200-204 | When `rollbackFor` accepts a stateful run's first error, the error is rethrown after one call. The context stays cached and unclosed for the next call with the key. |
| TemplateProps.RollbackFirstTurn | src/main/java/com/github/liyibo1110/spring/retry/support/RetryTemplate.java:172-204 | The loop of such a run registers the context in the cache, then rethrows. |
| TemplateProps.GateKeepsGlobal | src/main/java/com/github/liyibo1110/spring/retry/support/RetryTemplate.java:162 | `canRetry` never removes the global mark. |
| TemplateProps.GlobalFailureEndsRun | src/main/java/com/github/liyibo1110/spring/retry/support/RetryTemplate.java:172-209 | On a global context, a failing call ends a stateful run: it rethrows, is interrupted or is exhausted. |
| TemplateProps.GlobalCallEndsRun | src/main/java/com/github/liyibo1110/spring/retry/support/RetryTemplate.java:163-209 | On a global context, any call ends a stateful run. |
| TemplateProps.GlobalEndsAfterOneTurn | src/main/java/com/github/liyibo1110/spring/retry/support/RetryTemplate.java:207-209 | A stateful run on a global context, such as a circuit breaker's, never takes a second turn. |
| TemplateProps.OpenRules | src/main/java/com/github/liyibo1110/spring/retry/support/RetryTemplate.java:268-305 | A fresh context is used exactly when the run is stateless, refreshing or uncached. A fresh context carries the `STATE_KEY` attribute exactly when the run has a non-null key. A reused context keeps its count, last error and backoff context, and loses only its three end markers. |
| TemplateProps.RegisterContextRules | src/main/java/com/github/liyibo1110/spring/retry/support/RetryTemplate.java:253-266 | Registration fails exactly when a retried context's key has left the cache, or the cache is full. Otherwise the key is cached. |
| TemplateProps.ExhaustRules | src/main/java/com/github/liyibo1110/spring/retry/support/RetryTemplate.java:315-366 | `EXHAUSTED` is set, and the key of a stateful, non-global run is evicted. Recovery runs exactly when there is a recovery callback and `NO_RECOVERY` is not set; a value it returns marks the context `RECOVERED`. Otherwise a stateful run raises either its last error or an `ExhaustedRetryException`, and a stateless run raises its last error. |
| TemplateProps.FinishRules | src/main/java/com/github/liyibo1110/spring/retry/support/RetryTemplate.java:219-242 | The verdict stands. A stateless run is always closed. A stateful run is closed, and evicted unless global, only when it succeeded or was exhausted; otherwise it is untouched. The listeners' `close` comes last, newest listener first. |
| TemplateProps.FinishLeavesUnfinished | src/main/java/com/github/liyibo1110/spring/retry/support/RetryTemplate.java:219-221 | A run whose script ran out is reported as it stands. |
| TemplateBuilder.Present | src/main/java/com/github/liyibo1110/spring/retry/support/RetryTemplateBuilder.java:218-221 | The listeners checked for null keep their number and order. |
| TemplateBuilder.PresentAppend | src/main/java/com/github/liyibo1110/spring/retry/support/RetryTemplateBuilder.java:172-185 | Adding one more present element appends its value. |
| TemplateBuilder.RetryTemplateBuilder.constructor | src/main/java/com/github/liyibo1110/spring/retry/support/RetryTemplateBuilder.java:31-36 | Nothing is selected yet. |
| TemplateBuilder.RetryTemplateBuilder.MaxAttemptsPolicy | src/main/java/com/github/liyibo1110/spring/retry/support/RetryTemplateBuilder.java:39-44 | Accepted exactly when the count is positive and no base policy was chosen; only then the base policy becomes a count limit. |
| TemplateBuilder.RetryTemplateBuilder.WithTimeout | src/main/java/com/github/liyibo1110/spring/retry/support/RetryTemplateBuilder.java:46-51 | Accepted exactly when the timeout is positive and no base policy was chosen. |
| TemplateBuilder.RetryTemplateBuilder.InfiniteRetry | src/main/java/com/github/liyibo1110/spring/retry/support/RetryTemplateBuilder.java:58-62 | Accepted exactly when no base policy was chosen. |
| TemplateBuilder.RetryTemplateBuilder.CustomPolicy | src/main/java/com/github/liyibo1110/spring/retry/support/RetryTemplateBuilder.java:64-69 | Accepted exactly for a non-null policy when no base policy was chosen. |
| TemplateBuilder.RetryTemplateBuilder.ExponentialBackoff | src/main/java/com/github/liyibo1110/spring/retry/support/RetryTemplateBuilder.java:83-95 | Accepted exactly when no backoff was chosen, the initial interval is at least 1, the multiplier is above 1 and the maximum is above the initial interval. The policy then paces with exactly those settings. |
| TemplateBuilder.RetryTemplateBuilder.FixedBackoff | src/main/java/com/github/liyibo1110/spring/retry/support/RetryTemplateBuilder.java:104-111 | Accepted exactly when no backoff was chosen and the interval is at least 1. The policy then sleeps that period. |
| TemplateBuilder.RetryTemplateBuilder.UniformRandomBackoff | src/main/java/com/github/liyibo1110/spring/retry/support/RetryTemplateBuilder.java:120-130 | Accepted exactly when no backoff was chosen, both bounds are at least 1, and the maximum is above the minimum. The policy then uses those bounds. |
| TemplateBuilder.RetryTemplateBuilder.NoBackoff | src/main/java/com/github/liyibo1110/spring/retry/support/RetryTemplateBuilder.java:138-142 | Accepted exactly when no backoff was chosen. |
| TemplateBuilder.RetryTemplateBuilder.CustomBackoff | src/main/java/com/github/liyibo1110/spring/retry/support/RetryTemplateBuilder.java:144-149 | Accepted exactly for a non-null policy when no backoff was chosen. |
| TemplateBuilder.RetryTemplateBuilder.ClassifierBuilderOf | src/main/java/com/github/liyibo1110/spring/retry/support/RetryTemplateBuilder.java:263-267 | The classifier builder is created empty on first use and reused afterwards. |
| TemplateBuilder.RetryTemplateBuilder.RetryOn | src/main/java/com/github/liyibo1110/spring/retry/support/RetryTemplateBuilder.java:156-159 | Accepted exactly for a non-null class when the builder is not a black list. The class is then appended to a white list. |
| TemplateBuilder.RetryTemplateBuilder.NotRetryOn | src/main/java/com/github/liyibo1110/spring/retry/support/RetryTemplateBuilder.java:164-167 | Accepted exactly for a non-null class when the builder is not a white list. The class is then appended to a black list. |
| TemplateBuilder.RetryTemplateBuilder.AddEach | src/main/java/com/github/liyibo1110/spring/retry/support/RetryTemplateBuilder.java:172-185 | A list succeeds exactly when no class is null and the mode allows it. All classes are then appended in order. An empty list creates nothing. |
| TemplateBuilder.RetryTemplateBuilder.RetryOnPredicate | src/main/java/com/github/liyibo1110/spring/retry/support/RetryTemplateBuilder.java:191-197 | Refused once classes or a predicate are set, and for a null predicate. Otherwise the predicate is stored. |
| TemplateBuilder.RetryTemplateBuilder.TraversingCauses | src/main/java/com/github/liyibo1110/spring/retry/support/RetryTemplateBuilder.java:202-205 | The classifier will walk cause chains; the mode and the classes are unchanged. |
| TemplateBuilder.RetryTemplateBuilder.WithListener | src/main/java/com/github/liyibo1110/spring/retry/support/RetryTemplateBuilder.java:212-216 | A non-null listener is appended; a null one is refused. |
| TemplateBuilder.RetryTemplateBuilder.WithListeners | src/main/java/com/github/liyibo1110/spring/retry/support/RetryTemplateBuilder.java:218-223 | When any listener is null, nothing is added. Otherwise all of them are appended in order. |
| TemplateBuilder.RetryTemplateBuilder.ExceptionPolicy | src/main/java/com/github/liyibo1110/spring/retry/support/RetryTemplateBuilder.java:233-240 | An exception policy is missing exactly when there is no predicate and the classifier builder has no class. |
| TemplateBuilder.RetryTemplateBuilder.Build | src/main/java/com/github/liyibo1110/spring/retry/support/RetryTemplateBuilder.java:227-256 | The base policy defaults to three attempts. The template's policy is the pessimistic composite of the base and exception policies. The backoff defaults to none. Listeners are copied. A classless classifier builder makes `build` fail. |
| TemplateBuilder.AssembledNeedsBoth | src/main/java/com/github/liyibo1110/spring/retry/support/RetryTemplateBuilder.java:242-244 | The built template retries only when both the base policy and the exception policy allow it. Both are asked. |
| TemplateBuilder.AssembledMaxAttempts | src/main/java/com/github/liyibo1110/spring/retry/support/RetryTemplateBuilder.java:242-244 | The built template's maximum number of attempts is the base count limit. |
| TemplateBuilder.BuildDefault | src/main/java/com/github/liyibo1110/spring/retry/support/RetryTemplateBuilder.java:227-256 | An untouched builder gives three attempts at any `Exception`, no backoff and no listeners. |
| TemplateBuilder.SecondBasePolicyRefused | src/main/java/com/github/liyibo1110/spring/retry/support/RetryTemplateBuilder.java:39-51 | A second base policy is refused whatever the first one was. |

## Left out

- Annotations, AOP interceptors, SpEL and `ExpressionRetryPolicy`, recovery-method lookup by reflection and dependency-injection wiring are not part of this model. They are reflection and expression evaluation over libraries not shown.
- `ExponentialRandomBackOffPolicy` is modelled only as a flag (`jitter`) on the exponential policy, with the same schedule. Its jitter is floating-point randomness from `Random.nextFloat`.
- `ExponentialAverageRetryStatistics` and `DefaultRetryStatisticsFactory` are not part of this model. The first is floating-point decay over the wall clock. The second always returns null, and the repository models that as the `NullFactory` case.
- Concurrency is not modelled: `volatile`, `AtomicInteger`, `ConcurrentHashMap`, `synchronized` and the per-thread storage of `RetrySynchronizationManager`. The model is a single thread, and the thread-bound slot is an object passed to the template.
- Clocks, sleeping and randomness are parameters. `now` is an argument, a `Sleeper` logs the delays it is asked for and which calls are interrupted, and a `RandomSource` answers from a given sequence of raw draws. `ThreadWaitSleeper` and `ObjectWaitSleeper` are not part of this model.
- Integers are unbounded. Java's `int` counters, `long` intervals and the `double`-to-`long` cast of the exponential schedule do not wrap or saturate here, and multipliers are reals rather than `double`s.
- A `Supplier` is modelled by the value it yields. Suppliers read once and suppliers read on every step keep the source's reading points, but a supplier whose value changes between reads is not modelled. A `randomSupplier` is an optional boolean, whose only effect is through `isRandom`.
- The `Duration` overloads of the builders are not modelled. They convert to milliseconds and call the `long` versions.
- Logging, `toString`, messages and the exception classes themselves are not modelled. An exception is a value that carries its class lineage and its cause.
- Exception-classifier policies are limited to the classifiers in this model: a constant `ClassifierSupport` and a `SubclassClassifier` over the policy map. A user-supplied classifier object is not modelled.
- A policy whose settings are changed after a context is opened is not modelled. Child policies are named by their index in the list captured at `open`, so the model cannot tell a later `setPolicies` or `setDelegate` apart from the captured one.
- Each policy call reads the clock once. Where Java reads `System.currentTimeMillis` twice in one `canRetry`, the model uses one reading.
- `close` is a no-op for every policy in this family, so only `CompositeRetryPolicy.close`'s rule (close all, rethrow the first error) is modelled, by `FirstThrown` and `CloseChildren`.
- Listeners never raise in this model. An exception thrown by a listener's `onError`, `onSuccess` or `close` is not modelled.
- A negative requested sleep is logged by the sleeper and does not move the clock back. The unclamped supplier values allow one; `Thread.sleep` would raise `IllegalArgumentException` for it.
- Policies.Select, Policies.CanRetry, Policies.Register: the exception-classifier policy selects from its map without keeping the memo that `SubclassClassifier.classify` writes in place. `PolicyProps.SelectIgnoresMemo` proves this changes no answer when no key is an interface, which is always the case for the source's `Class<? extends Throwable>` keys. A map with an interface key would answer differently after memoisation (see `ClassifyProps.MemoCanChangeSubclassAnswer`), and that case is not modelled at the policy level.
- Templates.RetryTemplate.DoExecute: requires `Consistent`, meaning a cached context has the shape of the template's current policy. A context cached under one policy and reopened under another fails with a `ClassCastException` in Java, and that case is not modelled.
- Execution.Execute: a run whose callback script runs out while the template would call again ends `Unfinished`, without the `finally` block. Scripts are finite, while a Java callback can be called any number of times.
- The `open` branch for "no history found" (a cached key whose context is null) cannot occur here, because `put` never stores a null context and a map cache is used. The template runs over `MapRetryContextCache`, not the soft-reference cache.
- Stats.NameOf: a `NAME` attribute that is not a string is treated as absent. Java would fail its cast with a `ClassCastException`.
- Stats.DefaultStatisticsRepository.Add: the five `addX` methods are one method over the counter, and the five `incrementX` methods are one `Increment`. `findAll` returns a set, not a list.
- TemplateBuilder.RetryTemplateBuilder.AddEach: when a class in the list is refused, only the growth of the class list is stated. In Java, the classes before the refused one stay added.
- `SimpleRetryPolicy` (lines 31 and 76) calls a three-argument `BinaryExceptionClassifier` constructor that the classifier does not declare. It is read as (map, default, traverse causes), the meaning the surrounding code gives it.

## Findings

| source | as written | input that shows it | evidently intended | confidence | as-written member | corrected member |
|---|---|---|---|---|---|---|
| src/main/java/com/github/liyibo1110/spring/classify/SubclassClassifier.java:77 | `classify` computes the mapped value of the nearest match, memoises it, then returns `null`. | An error of an unmapped class whose superclass `Exception` is mapped to true, under a default of false: the answer is null, not true. | Return the value found, or the default (the doc comment at lines 9-10). | not executed | Classify.SubclassClassifier.ClassifyAsWritten, ClassifyProps.HierarchyMatchIsNotNull | Classify.SubclassClassifier.Classify |
| src/main/java/com/github/liyibo1110/spring/classify/BinaryExceptionClassifier.java:77 | The cause walk tests `containsKey(cause.getCause())`, a `Throwable` against a map keyed by `Class`. That test is never true, and it dereferences null when the cause is null. | A rule that maps nothing, with default false and traversal on, given an `Exception` without a cause: `NullPointerException` instead of false. | The first non-default classification along the cause chain, else the default. | not executed | Classify.BinaryClassifyAsWritten, ClassifyProps.AsWrittenThrowsOnCauselessError | Classify.BinaryExceptionClassifier.Classify, Classify.BinaryClassified |
| src/main/java/com/github/liyibo1110/spring/retry/backoff/FixedBackOffPolicy.java:18-23 | `withSleeper` builds the copy with the new sleeper and returns `null`. | Any sleeper: the caller receives null. | Return the copy, as `UniformRandomBackOffPolicy.withSleeper` does. | not executed | BackOffs.FixedBackOffPolicy.WithSleeperAsWritten | BackOffs.FixedBackOffPolicy.WithSleeper |
