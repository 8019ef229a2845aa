/** Go's `uint` on a 64-bit platform: the type of the view, the sequence number and the
    last-executed counter. Arithmetic on it wraps around modulo 2^64. */
module Uint64 {

  const MOD: int := 0x1_0000_0000_0000_0000
  const MAX: int := MOD - 1

  type Uint = x: int | 0 <= x < MOD

  /** `x + n` evaluated in Go's unsigned arithmetic. */
  function Add(x: Uint, n: nat): (r: Uint)
  {
    (x + n) % MOD
  }

  /** `x + 1` evaluated in Go's unsigned arithmetic. */
  function Inc(x: Uint): (r: Uint)
    ensures x < MAX ==> r == x + 1
    ensures x == MAX ==> r == 0
  {
    Add(x, 1)
  }

  /** Adding in two steps is adding once: wrap-around does not lose counts. */
  lemma AddAdd(x: Uint, a: nat, b: nat)
    ensures Add(Add(x, a), b) == Add(x, a + b)
  {
  }
}
