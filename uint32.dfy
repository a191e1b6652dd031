/** Millisecond timestamps and durations as the source stores them: `uint32_t`,
    so a difference of two timestamps wraps around modulo 2^32. */
module Uint32 {

  const MODULUS: int := 0x1_0000_0000

  newtype uint32 = x: int | 0 <= x < 0x1_0000_0000

  /** `now - since` computed in `uint32_t` arithmetic: the time elapsed from
      `since` to `now`, counting a clock that has wrapped past zero. */
  function Elapsed(now: uint32, since: uint32): (r: uint32)
    ensures r as int == if since <= now then now as int - since as int
                        else now as int - since as int + MODULUS
    ensures (since as int + r as int) % MODULUS == now as int
  {
    ((now as int - since as int) % MODULUS) as uint32
  }

  /** The timestamp `d` milliseconds after `t`, again wrapping around. */
  function Add(t: uint32, d: uint32): (r: uint32)
    ensures Elapsed(r, t) == d
  {
    ((t as int + d as int) % MODULUS) as uint32
  }
}
