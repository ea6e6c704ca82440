/** Small types and functions that several modules use. */
module Basics {

  datatype Option<T> = None | Some(value: T)

  function Min(a: int, b: int): int { if a <= b then a else b }

  function Max(a: int, b: int): int { if a >= b then a else b }
}

/** Task ids and statuses, the same for the gateway and the worker. */
module TaskStatus {

  type Id = string

  datatype Status = Pending | Running | Success | Failed | Timeout | Cancelled

  predicate Terminal(status: Status) {
    status.Success? || status.Failed? || status.Timeout? || status.Cancelled?
  }
}
