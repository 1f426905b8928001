/** Shared vocabulary: optional values, results, and the integer operators the sources use. */
module Prelude {

  datatype Option<+T> = None | Some(value: T)

  datatype Result<+T, +E> = Ok(value: T) | Err(error: E)

  /** How a call to a store ends: done; failed without effect; or failed after taking effect. */
  datatype Outcome = Done | Lost | Unsure

  function Min(a: int, b: int): int {
    if a <= b then a else b
  }

  function Max(a: int, b: int): int {
    if a >= b then a else b
  }

  /** Quotient rounded up; the callers divide non-negative numbers only. */
  function CeilDiv(a: nat, b: nat): nat
    requires b > 0
  {
    (a + b - 1) / b
  }

  /** Quotient truncated toward zero, as Lua replies and Go's `/` round it. */
  function TruncDiv(a: int, b: nat): int
    requires b > 0
  {
    if a >= 0 then a / b else -((-a) / b)
  }

  lemma MulKeepsOrder(x: int, y: int, b: nat)
    requires x <= y
    ensures x * b <= y * b
  {
    assert (y - x) * b >= 0;
  }

  /** `CeilDiv` is the least whole number of `b`s that covers `a`. */
  lemma CeilDivIsLeastCover(a: nat, b: nat, n: int)
    requires b > 0
    ensures CeilDiv(a, b) <= n <==> a <= n * b
  {
    var q, r := (a + b - 1) / b, (a + b - 1) % b;
    assert a + b - 1 == b * q + r;
    if q <= n {
      MulKeepsOrder(q, n, b);
    } else {
      MulKeepsOrder(n + 1, q, b);
      assert (n + 1) * b == n * b + b;
    }
  }
}
