/** Exact integer amounts bounded by DECIMAL(38,0), and the option type used for checked results. */
module Amounts {

  /** Ten to the power 38: the first magnitude that no longer has at most 38 digits. */
  const LIMIT: int := 100000000000000000000000000000000000000

  predicate Fits(v: int) {
    -LIMIT < v < LIMIT
  }

  type Amount = v: int | Fits(v) witness 0

  datatype Option<+T> = None | Some(value: T) {
    function GetOr(default: T): T {
      match this
      case Some(v) => v
      case None => default
    }
  }

  /** Checked addition: no result when the sum leaves the representable range. */
  function Add(a: int, b: int): Option<int> {
    if Fits(a + b) then Some(a + b) else None
  }

  function Sub(a: int, b: int): Option<int> {
    if Fits(a - b) then Some(a - b) else None
  }

  /** The checked left-to-right sum of three amounts. */
  function Sum3(a: int, b: int, c: int): Option<int> {
    if Fits(a) && Fits(a + b) && Fits(a + b + c) then Some(a + b + c) else None
  }

  /** The entry of a map whose missing keys read as zero. */
  function Get<K>(m: map<K, int>, k: K): int {
    if k in m then m[k] else 0
  }
}
