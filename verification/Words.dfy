/** The machine integers of the Rust component and powers of two. */
module Words {
  import opened Arith

  const U64_LIMIT: nat := 0x1_0000_0000_0000_0000
  const U128_LIMIT: nat := 0x1_0000_0000_0000_0000_0000_0000_0000_0000
  const U256_LIMIT: nat := 0x1_0000_0000_0000_0000_0000_0000_0000_0000_0000_0000_0000_0000_0000_0000_0000_0000

  type u32 = x: nat | x < 0x1_0000_0000
  type u64 = x: nat | x < U64_LIMIT
  type u128 = x: nat | x < U128_LIMIT
  type u256 = x: nat | x < U256_LIMIT

  const U512_LIMIT: nat := U256_LIMIT * U256_LIMIT

  type i32 = x: int | -0x8000_0000 <= x < 0x8000_0000
  type i64 = x: int | -0x8000_0000_0000_0000 <= x < 0x8000_0000_0000_0000

  const U32_MAX: u32 := 0xFFFF_FFFF

  // The residue of x modulo 2^256, by repeated correction.
  function Wrap256(x: int): u256
    decreases x < 0, if x < 0 then -x else x
  {
    if x < 0 then Wrap256(x + U256_LIMIT)
    else if x < U256_LIMIT then x
    else Wrap256(x - U256_LIMIT)
  }

  // U256 arithmetic wraps.
  function Add256(a: u256, b: u256): u256 {
    Wrap256(a + b)
  }

  function Sub256(a: u256, b: u256): u256 {
    Wrap256(a - b)
  }

  function Mul256(a: u256, b: u256): u256 {
    Wrap256(a * b)
  }

  function Div256(a: u256, d: u256): (q: u256)
    requires d > 0
    ensures q <= a
  {
    DivShrinks(a, d);
    a / d
  }

  lemma Mul256Fits(a: u256, b: u256)
    requires a * b < U256_LIMIT
    ensures 0 <= a * b && Mul256(a, b) == a * b
  {
    MulBothSides(0, b, a, b);
  }

  // `u32::try_from(x).unwrap_or(u32::MAX)`
  function SaturateU32(x: nat): u32 {
    if x <= U32_MAX then x else U32_MAX
  }

  function Pow2(k: nat): nat {
    if k == 0 then 1 else 2 * Pow2(k - 1)
  }

  lemma {:induction false} Pow2Monotone(j: nat, k: nat)
    requires j <= k
    ensures 1 <= Pow2(j) <= Pow2(k)
  {
    if k == 0 {
    } else if j == k {
      Pow2Monotone(j - 1, k - 1);
    } else {
      Pow2Monotone(j, k - 1);
    }
  }
}
