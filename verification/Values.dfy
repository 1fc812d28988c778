/** Values shared by every module: optional results, and UTC instants in milliseconds. */
module Values {

  datatype Option<+T> = None | Some(value: T)

  /** Milliseconds since the Unix epoch. */
  type Time = int

  /** A non-negative duration in milliseconds. */
  type Millis = nat

  const DAY_MS: int := 86_400_000

  /** The latest instant a UTC timestamp can hold. */
  const MAX_UTC: Time := 8_210_266_876_799_999

  /** The UTC calendar day of an instant, counted from the epoch. */
  function Day(t: Time): int { t / DAY_MS }

  function DayStart(day: int): Time { day * DAY_MS }

  function DayEnd(day: int): Time { DayStart(day) + DAY_MS }

  function Max(a: int, b: int): int { if a < b then b else a }

  function Min(a: int, b: int): int { if a < b then a else b }

  const U64_MAX: nat := 0xFFFF_FFFF_FFFF_FFFF

  function Power2(k: nat): (p: nat)
    ensures p > 0
  {
    if k == 0 then 1 else 2 * Power2(k - 1)
  }

  /** Adding a duration saturates at the latest representable instant. */
  function AddDuration(t: Time, d: Millis): Time { Min(t + d, MAX_UTC) }
}
