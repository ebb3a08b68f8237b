/** Small definitions shared by every module. */
module Common {

  datatype Option<+T> = None | Some(value: T)

  /** Outcome of an operation that the source ends by raising an exception. */
  datatype Outcome<+E> = Done | Raised(error: E)

  function Min(a: int, b: int): int {
    if a <= b then a else b
  }

  function Max(a: int, b: int): int {
    if a >= b then a else b
  }

  /** Lower case, for the letters A to Z. */
  function Lower(s: string): string {
    seq(|s|, i requires 0 <= i < |s| => if 'A' <= s[i] <= 'Z' then (s[i] as int + 32) as char else s[i])
  }
}
