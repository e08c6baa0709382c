/** Integer helpers shared by the context builder and the timer delay. */
module Ints {
  /** `Math.min(a, b)`. */
  function Min(a: int, b: int): int { if a < b then a else b }

  /** `Math.max(a, b)`. */
  function Max(a: int, b: int): int { if a < b then b else a }
}
