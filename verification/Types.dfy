/** Identifiers and small value types shared by the master's modules. */
module Types {

  datatype Option<+T> = None | Some(value: T)

  // Job ids (random UUIDs) and worker ids are only ever compared for equality,
  // so integers stand for them.
  type JobId = int
  type WorkerId = int

  datatype Status = Pending | Preparing | Running | Completed | Failed | Cancelled
  {
    predicate Terminal() { Completed? || Failed? || Cancelled? }
  }

  /** Some element: the order in which a hash map or set is walked is left open. */
  method Pick<T(==)>(s: set<T>) returns (x: T)
    requires s != {}
    ensures x in s
  {
    x :| x in s;
  }
}
