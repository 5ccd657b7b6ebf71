/** The 32-bit tick arithmetic of the port: TickType_t and UBaseType_t are uint32_t. */
module Machine {

  const WORD: int := 0x1_0000_0000

  /** portMAX_DELAY: also the value of every list's end marker. */
  const MAX_DELAY: int := 0xFFFF_FFFF

  type Tick = t: int | 0 <= t < WORD

  function Add32(a: Tick, b: Tick): Tick {
    if a + b < WORD then a + b else a + b - WORD
  }

  function Sub32(a: Tick, b: Tick): Tick {
    if a >= b then a - b else a - b + WORD
  }

  /** Unbounded time: the number of tick-counter wraps so far, and the counter. */
  function Stamp(epoch: nat, tick: Tick): nat {
    epoch * WORD + tick
  }

  /** The counter value that shows at unbounded time `time`. */
  function Low(time: nat): Tick {
    time % WORD
  }

  lemma Split(time: nat)
    ensures time == time / WORD * WORD + Low(time)
  {
  }

  lemma Added(time: nat, n: Tick)
    ensures Add32(Low(time), n) == Low(time + n)
  {
    Split(time);
    Split(time + n);
  }
}
