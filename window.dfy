/** The window-length policy of `apply_savgol_filter`: the integer arithmetic
    that turns a requested window length and the length of the series into the
    window handed to the Savitzky–Golay filter. The filter itself is external. */
module SavgolWindow {

  /** Window length and polynomial order `apply_savgol_filter` uses by default. */
  const DefaultWindow: int := 15
  const DefaultPolyOrder: int := 3

  /** The cap applied when the requested window does not fit the series. */
  const MaxWindow: int := 15

  /** `min(n, 15)`: the cap applied to a window that does not fit. */
  function Capped(n: int): int { if n <= MaxWindow then n else MaxWindow }

  /** The largest odd integer that does not exceed `n` (odd means `n % 2 == 1`,
      which holds for negative odd numbers too, as in Python). */
  function LargestOddAtMost(n: int): (r: int)
    ensures r % 2 == 1
    ensures n - 1 <= r <= n
  {
    if n % 2 == 1 then n else n - 1
  }

  /** The window length `apply_savgol_filter` passes to the filter for a
      series of `length` values when `requested` is asked for. */
  function EffectiveWindow(requested: int, length: nat): (w: int)
    ensures w % 2 == 1
    ensures w < length
    ensures w == LargestOddAtMost(if requested < length then requested else Capped(length - 1))
  {
    var fitted :=
      if requested >= length then Capped(if length % 2 == 0 then length - 1 else length - 2)
      else requested;
    if fitted % 2 == 0 then fitted - 1 else fitted
  }

  /** SciPy's filter rejects a polynomial order that is not below the window
      length; this is the condition under which the default call goes through. */
  predicate FilterAccepts(length: nat)
  {
    DefaultPolyOrder < EffectiveWindow(DefaultWindow, length)
  }

  /** With the default request the window is the smaller of 15 and the largest
      odd number below the series length. */
  lemma DefaultWindowRule(length: nat)
    ensures EffectiveWindow(DefaultWindow, length) == Capped(LargestOddAtMost(length - 1))
  {
  }

  /** An odd request that is already below the series length is kept. */
  lemma OddRequestKept(requested: int, length: nat)
    requires requested % 2 == 1 && requested < length
    ensures EffectiveWindow(requested, length) == requested
  {
  }

  /** An even request below the series length loses one. */
  lemma EvenRequestShortened(requested: int, length: nat)
    requires requested % 2 == 0 && requested < length
    ensures EffectiveWindow(requested, length) == requested - 1
  {
  }

  /** The default call is accepted by the filter exactly for series of at
      least six values; shorter ones get a window of at most 3. */
  lemma FilterAcceptsIff(length: nat)
    ensures FilterAccepts(length) <==> length >= 6
  {
  }
}
