/** Shared value types. */
module Common {
  datatype Option<+T> = None | Some(value: T)

  /** The state of one execution, as the Agent reports it. */
  datatype Status = Starting | Running | Stopping | Stopped | Crashed | Backoff | Failed

  lemma {:induction false} SmallerSet<T>(a: set<T>, b: set<T>)
    requires a <= b
    ensures |a| <= |b|
    decreases a
  {
    if a != {} {
      var x :| x in a;
      SmallerSet(a - {x}, b - {x});
    }
  }
}
