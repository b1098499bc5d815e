/** The deadline arithmetic shared by the dispatch guard and the submission guard. */
module Cutoff {
  import opened Words

  /** Seconds left before a proof is one minute old, less a buffer; every operation saturates. */
  function GetCutoff(lastHashAt: int, buffer: int, now: int): int {
    Saturate64(Saturate64(Saturate64(lastHashAt + 60) - buffer) - now)
  }

  /** Waiting never gives time back, and a larger buffer never leaves more time, whatever saturates. */
  lemma CutoffShrinks(lastHashAt: int, buffer: int, buffer': int, now: int, now': int)
    requires buffer <= buffer' && now <= now'
    ensures GetCutoff(lastHashAt, buffer', now') <= GetCutoff(lastHashAt, buffer, now)
  {
  }

  lemma OlderProofNoLater(older: int, newer: int, buffer: int, now: int)
    requires older <= newer
    ensures GetCutoff(older, buffer, now) <= GetCutoff(newer, buffer, now)
  {
  }

  /** For every proof time and clock reading that an i64 holds, the answer is the exact difference
      exactly when none of the three intermediate values leaves the i64 range. */
  lemma CutoffExact(lastHashAt: int, buffer: int, now: int)
    requires I64_MIN <= lastHashAt <= I64_MAX && 0 <= buffer <= 60 && 0 <= now <= I64_MAX
    ensures GetCutoff(lastHashAt, buffer, now) == lastHashAt + 60 - buffer - now
       <==> lastHashAt + 60 <= I64_MAX && I64_MIN <= lastHashAt + 60 - buffer - now
  {
  }
}
