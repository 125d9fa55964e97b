/** The option type and the identifiers the other modules share. */
module Wrappers {

  datatype Option<+T> = None | Some(value: T)

  /** Conversation uuids and task ids are only compared and drawn fresh. */
  type ConvId = nat
  type TaskId = nat

  lemma SubsetSize<T>(a: set<T>, b: set<T>)
    requires a <= b
    ensures |a| <= |b|
  {
    assert b == a + (b - a);
  }
}
