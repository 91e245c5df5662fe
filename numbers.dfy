/** The Python numeric built-ins the dialog relies on, over Dafny's unbounded reals. */
module Numbers {
  /** Python's `max(a, b)` on two numbers. */
  function Max(a: real, b: real): real { if a < b then b else a }

  /** Python's `min(a, b)` on two numbers. */
  function Min(a: real, b: real): real { if b < a then b else a }

  /** Python's `int(x)` on a float: truncation toward zero. */
  function Trunc(x: real): (n: int)
    ensures 0.0 <= x ==> 0 <= n && n as real <= x < n as real + 1.0
    ensures x < 0.0 ==> n <= 0 && n as real - 1.0 < x <= n as real
  {
    if 0.0 <= x then x.Floor else -((-x).Floor)
  }
}
