/** An absent value and printed numbers, shared by the other modules. */
module Wrappers {
  datatype Option<+T> = None | Some(value: T)

  predicate Digit(c: char) { '0' <= c <= '9' }

  /** `str` of a number. */
  function Decimal(n: nat): (r: string)
    ensures r != "" && forall i :: 0 <= i < |r| ==> Digit(r[i])
  {
    if n < 10 then ['0' + n as char] else Decimal(n / 10) + ['0' + (n % 10) as char]
  }
}
