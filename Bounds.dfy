/** The integer minimum and maximum the other modules clamp counts with. */
module Bounds {
  function Min(a: int, b: int): int { if a < b then a else b }
  function Max(a: int, b: int): int { if a < b then b else a }
}
