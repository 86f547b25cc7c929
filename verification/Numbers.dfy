/** Numeric arguments as they reach the program. */
module Numbers {

  /** An argument that may be absent, no number, or not finite. */
  datatype Number = NotFinite | Finite(value: real)

  /** Rounding toward zero. */
  function Trunc(r: real): int { if r >= 0.0 then r.Floor else -((-r).Floor) }

  /** The whole part of a number, moved into a range; `otherwise` when there is no finite number. */
  function Clamped(n: Number, low: int, high: int, otherwise: int): (r: int)
    requires low <= otherwise <= high
    ensures low <= r <= high
    ensures n.NotFinite? ==> r == otherwise
    ensures n.Finite? && n.value < low as real ==> r == low
    ensures n.Finite? && n.value >= high as real ==> r == high
    ensures n.Finite? && low as real <= n.value < high as real && low >= 0 ==> r as real <= n.value < (r + 1) as real
  {
    match n
    case NotFinite => otherwise
    case Finite(v) => if Trunc(v) < low then low else if Trunc(v) > high then high else Trunc(v)
  }
}
