/** uxTopReadyPriority as a bitmap of priorities, as in portable/GCC/ARM_CM3/portmacro.h.
    A word is given by its 32 bits, the least significant one first. */
module ReadyBitmap {
  import opened Priorities

  type Word = w: seq<bool> | |w| == 32 witness seq(32, _ => false)

  /** portRECORD_READY_PRIORITY: |= 1UL << p. */
  function Record(w: Word, p: Level): Word { w[p := true] }

  /** portRESET_READY_PRIORITY: &= ~(1UL << p). */
  function Reset(w: Word, p: Level): Word { w[p := false] }

  /** ucPortCountLeadingZeros, for the `n` low bits of a word. */
  function LeadingZeros(w: seq<bool>): (z: nat)
    ensures z <= |w|
    ensures z < |w| ==> w[|w| - 1 - z] && forall i :: |w| - z <= i < |w| ==> !w[i]
    ensures z == |w| ==> forall i :: 0 <= i < |w| ==> !w[i]
  {
    if w == [] || w[|w| - 1] then 0 else
      var z := LeadingZeros(w[..|w| - 1]);
      assert forall i :: 0 <= i < |w| - 1 ==> w[i] == w[..|w| - 1][i];
      z + 1
  }

  /** portGET_HIGHEST_PRIORITY. */
  function Highest(w: Word): int { 31 - LeadingZeros(w) }

  /** Counting leading zeros finds the highest priority whose bit is set. */
  lemma HighestIsTop(w: Word, p: Level)
    requires w[p] && forall i :: MAX_PRIORITIES <= i < 32 ==> !w[i]
    ensures p <= Highest(w) < MAX_PRIORITIES && w[Highest(w)]
    ensures forall q :: Highest(w) < q < MAX_PRIORITIES ==> !w[q]
  {
  }
}
