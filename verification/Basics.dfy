/** Small things that several modules use. */
module Basics {

  type Byte = b: int | 0 <= b < 256

  /** How a monitored command ended. */
  datatype Status = Complete | FailedCommand | Violated | MonitorError

  function Max(a: int, b: int): int { if a < b then b else a }

  function Min(a: int, b: int): int { if a < b then a else b }

  ghost predicate Distinct<T>(s: seq<T>) { forall i, j :: 0 <= i < j < |s| ==> s[i] != s[j] }
}
