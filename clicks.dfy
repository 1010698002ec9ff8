/** The double-click test of the click-state tracker: purely time-based, no location. */
module Clicks {

  /** Two primary-button presses closer together than this, in milliseconds, make a double click. */
  const DoubleClickMillis: int := 500

  /** The last two primary-button presses, at `prevMs` and `curMs`, form a double click. */
  predicate IsDoubleClick(prevMs: int, curMs: int) {
    curMs - prevMs < DoubleClickMillis
  }

  /** The comparison is strict: a gap of 499 ms is a double click, a gap of 500 ms is not. */
  lemma DoubleClickThreshold(prevMs: int, curMs: int)
    ensures curMs - prevMs == 499 ==> IsDoubleClick(prevMs, curMs)
    ensures curMs - prevMs == 500 ==> !IsDoubleClick(prevMs, curMs)
    ensures IsDoubleClick(prevMs, curMs) <==> curMs - prevMs <= DoubleClickMillis - 1
  {
  }
}
