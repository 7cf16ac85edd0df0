/** 32-bit tick arithmetic (configUSE_16_BIT_TICKS is 0) against an unbounded clock. */
module Ticks {

  const WRAP: nat := 0x1_0000_0000
  const MAX_DELAY: nat := 0xFFFF_FFFF  // portMAX_DELAY

  type Tick = n: nat | n < WRAP

  /** The tick count when the unbounded clock shows `t`. */
  function Low(t: nat): Tick { t % WRAP }

  /** How often the tick count has wrapped by then: the epoch the lists belong to. */
  function Epoch(t: nat): nat { t / WRAP }

  function Plus(a: Tick, b: Tick): Tick { (a + b) % WRAP }

  function Minus(a: Tick, b: Tick): Tick { (a - b) % WRAP }

  lemma Split(t: nat)
    ensures t == Epoch(t) * WRAP + Low(t)
  {
  }

  /** A clock value is decided by its epoch and its tick count. */
  lemma Join(epoch: nat, low: Tick)
    ensures Epoch(epoch * WRAP + low) == epoch && Low(epoch * WRAP + low) == low
  {
  }

  lemma PlusIsLow(t: nat, d: Tick)
    ensures Plus(Low(t), d) == Low(t + d)
    ensures Epoch(t + d) == if Low(t) + d < WRAP then Epoch(t) else Epoch(t) + 1
  {
  }

  lemma MinusIsDistance(from: nat, to: nat)
    requires from <= to < from + WRAP
    ensures Minus(Low(to), Low(from)) == to - from
  {
  }
}
