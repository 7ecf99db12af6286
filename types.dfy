/** Values shared by every part of the retry model: optional values, Java
  * error values with the class lineage the classifiers walk, and the named
  * attributes a retry context carries. */
module Types {

  datatype Option<T> = None | Some(value: T)

  /** A Java class or interface, identified by number. */
  type TypeId = nat

  // Classes of the Java runtime and of the retry library that the model
  // refers to by name.
  const THROWABLE: TypeId := 1
  const EXCEPTION: TypeId := 2
  const ERROR: TypeId := 3
  const RUNTIME_EXCEPTION: TypeId := 4
  const NESTED_RUNTIME_EXCEPTION: TypeId := 5
  const RETRY_EXCEPTION: TypeId := 6
  const TERMINATED_RETRY_EXCEPTION: TypeId := 7
  const EXHAUSTED_RETRY_EXCEPTION: TypeId := 8
  const BACK_OFF_INTERRUPTED_EXCEPTION: TypeId := 9
  const RETRY_CACHE_CAPACITY_EXCEEDED_EXCEPTION: TypeId := 10
  const UNDECLARED_THROWABLE_EXCEPTION: TypeId := 11
  const INTERRUPTED_EXCEPTION: TypeId := 12
  const NULL_POINTER_EXCEPTION: TypeId := 13

  /** One level of a class hierarchy: the class and the interfaces it
    * declares directly (what `getInterfaces()` returns for it). */
  datatype ClassInfo = ClassInfo(name: TypeId, interfaces: seq<TypeId>)

  /** The runtime class of an error followed by its superclasses, nearest
    * first, up to but excluding `Object`. */
  type Lineage = s: seq<ClassInfo> | |s| > 0 witness [ClassInfo(THROWABLE, [])]

  /** A Java `Throwable`: its class lineage and its optional cause. */
  datatype Failure = Failure(lineage: Lineage, cause: Option<Failure>)
  {
    /** `getClass()` */
    function ClassOf(): TypeId {
      lineage[0].name
    }

    /** `instanceof t` for a class `t`. */
    predicate InstanceOf(t: TypeId) {
      exists i :: 0 <= i < |lineage| && lineage[i].name == t
    }
  }

  /** The lineage shared by the library's exceptions: each extends
    * `RetryException`, a `NestedRuntimeException`. */
  function RetryLineage(kind: TypeId): (s: Lineage)
    ensures s[0].name == kind
    ensures forall i :: 0 <= i < |s| ==> s[i].name != ERROR || kind == ERROR
  {
    var base := [ClassInfo(RETRY_EXCEPTION, []), ClassInfo(NESTED_RUNTIME_EXCEPTION, []),
                 ClassInfo(RUNTIME_EXCEPTION, []), ClassInfo(EXCEPTION, []), ClassInfo(THROWABLE, [])];
    if kind == RETRY_EXCEPTION then base else [ClassInfo(kind, [])] + base
  }

  /** A freshly raised library exception of class `kind` with the given cause. */
  function RetryFailure(kind: TypeId, cause: Option<Failure>): (f: Failure)
    ensures f.ClassOf() == kind && f.cause == cause
    ensures f.InstanceOf(RETRY_EXCEPTION) && f.InstanceOf(RUNTIME_EXCEPTION) && f.InstanceOf(EXCEPTION)
    ensures kind != ERROR ==> !f.InstanceOf(ERROR)
  {
    var f := Failure(RetryLineage(kind), cause);
    assert f.lineage[|f.lineage| - 5].name == RETRY_EXCEPTION;
    assert f.lineage[|f.lineage| - 3].name == RUNTIME_EXCEPTION;
    assert f.lineage[|f.lineage| - 2].name == EXCEPTION;
    f
  }

  /** `new InterruptedException()`, what an interrupted sleep raises. */
  function Interrupted(): (f: Failure)
    ensures f.ClassOf() == INTERRUPTED_EXCEPTION && f.InstanceOf(EXCEPTION) && !f.InstanceOf(ERROR)
  {
    var f := Failure([ClassInfo(INTERRUPTED_EXCEPTION, []), ClassInfo(EXCEPTION, []), ClassInfo(THROWABLE, [])], None);
    assert f.lineage[1].name == EXCEPTION;
    f
  }

  /** The `NullPointerException` raised by `throw null`. */
  function NullPointer(): (f: Failure)
    ensures f.ClassOf() == NULL_POINTER_EXCEPTION && f.InstanceOf(EXCEPTION) && !f.InstanceOf(ERROR)
  {
    var f := Failure([ClassInfo(NULL_POINTER_EXCEPTION, []), ClassInfo(RUNTIME_EXCEPTION, []),
                      ClassInfo(EXCEPTION, []), ClassInfo(THROWABLE, [])], None);
    assert f.lineage[2].name == EXCEPTION;
    f
  }

  /** Attribute values a retry context stores under a name. */
  datatype Attr = Flag(on: bool) | Number(n: int) | Text(s: string) | Key(key: int)

  // Attribute names (RetryContext) and the library's own names.
  const NAME: string := "context.name"
  const STATE_KEY: string := "context.state"
  const CLOSED: string := "context.closed"
  const RECOVERED: string := "context.recovered"
  const EXHAUSTED: string := "context.exhausted"
  const NO_RECOVERY: string := "context.no-recovery"
  const MAX_ATTEMPTS: string := "context.max-attempts"
  const GLOBAL_STATE: string := "state.global"
  const CIRCUIT_OPEN: string := "circuit.open"
  const CIRCUIT_SHORT_COUNT: string := "circuit.shortCount"

  /** `RetryPolicy.NO_MAXIMUM_ATTEMPTS_SET` */
  const NO_MAXIMUM_ATTEMPTS_SET: int := -1

  /** `Boolean.TRUE.equals(getAttribute(name))` */
  predicate IsTrue(attrs: map<string, Attr>, name: string) {
    name in attrs && attrs[name] == Flag(true)
  }
}
