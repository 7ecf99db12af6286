/** `RetrySynchronizationManager` for one thread: a slot holding the
  * current retry context. The thread-local and the per-thread map storage
  * behave alike for a single thread and are one slot here. */
module Sync {
  import opened Contexts

  class RetrySynchronizationManager {
    var current: RetryContext?

    /** Initially there is no current context. */
    constructor ()
      ensures current == null
    {
      current := null;
    }

    function GetContext(): RetryContext?
      reads this
    {
      current
    }

    /** `register`: `c` becomes current; the previous one is returned. */
    method Register(c: RetryContext) returns (previous: RetryContext?)
      modifies this
      ensures previous == old(current) && current == c
    {
      previous := current;
      current := c;
    }

    /** `clear`: the current context is returned and its parent becomes
      * current; with none current, none stays current. */
    method Clear() returns (cleared: RetryContext?)
      modifies this
      ensures cleared == old(current)
      ensures current == if old(current) == null then null else old(current).parent
    {
      cleared := current;
      current := if cleared == null then null else cleared.parent;
    }

    /** A `register` followed by a `clear` restores the context current
      * before exactly when it is the registered context's parent. */
    method RegisterThenClear(c: RetryContext)
      modifies this
      ensures current == c.parent
      ensures current == old(current) <==> c.parent == old(current)
    {
      var _ := Register(c);
      var _ := Clear();
    }
  }
}
