/** Small shared vocabulary: an Option type, pointer-sized handles, and the
    C++ integer conversions and division the engine's arithmetic relies on. */
module Common {

  datatype Option<+T> = None | Some(value: T)

  /** A pointer, window id or other OS handle, as its integer value; 0 is null. */
  type Handle = nat

  const NULL: Handle := 0

  const U32_LIMIT: int := 0x1_0000_0000
  const U64_LIMIT: int := 0x1_0000_0000_0000_0000

  predicate IsI32(x: int) { -0x8000_0000 <= x < 0x8000_0000 }

  /** Conversion of a signed value to `u32` (modular, as C++ defines it). */
  function ToU32(x: int): (r: nat)
    ensures r < U32_LIMIT
    ensures (x - r) % U32_LIMIT == 0
    ensures 0 <= x < U32_LIMIT ==> r == x
  {
    x % U32_LIMIT
  }

  /** Conversion of a signed value to a 64-bit unsigned one (`Atom`, `Size`). */
  function ToU64(x: int): (r: nat)
    ensures r < U64_LIMIT
    ensures (x - r) % U64_LIMIT == 0
    ensures 0 <= x < U64_LIMIT ==> r == x
  {
    x % U64_LIMIT
  }

  /** C++ `a / 2` on signed integers: the quotient is truncated toward zero. */
  function TruncHalf(a: int): (q: int)
    ensures a >= 0 ==> 0 <= a - 2 * q <= 1
    ensures a < 0 ==> -1 <= a - 2 * q <= 0
    ensures q == 0 <==> -1 <= a <= 1
  {
    if a >= 0 then a / 2 else -((-a) / 2)
  }

  /** Width and height in device pixels (`shared::ScreenSize`, two `u32`). */
  datatype ScreenSize = ScreenSize(width: nat, height: nat)
}
