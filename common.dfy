// Shared vocabulary: fixed-width integer ranges, an optional value, and the
// unsigned wrap-around arithmetic that C++ `uint32`/`uint16` code performs.
module Common {

  const TWO_8: nat := 0x100
  const TWO_16: nat := 0x1_0000
  const TWO_32: nat := 0x1_0000_0000
  const TWO_64: nat := 0x1_0000_0000_0000_0000

  type u8 = x: nat | x < TWO_8
  type u16 = x: nat | x < TWO_16
  type u32 = x: nat | x < TWO_32

  datatype Option<T> = None | Some(value: T)

  function Min(a: int, b: int): (r: int)
    ensures r <= a && r <= b && (r == a || r == b)
  {
    if a < b then a else b
  }

  function Max(a: int, b: int): (r: int)
    ensures r >= a && r >= b && (r == a || r == b)
  {
    if a < b then b else a
  }

  /** `a + b` evaluated in 32-bit unsigned arithmetic. */
  function Add32(a: u32, b: u32): (r: u32)
    ensures a + b < TWO_32 ==> r == a + b
    ensures a + b >= TWO_32 ==> r == a + b - TWO_32
  {
    (a + b) % TWO_32
  }

  /** `a - b` evaluated in 32-bit unsigned arithmetic. */
  function Sub32(a: u32, b: u32): (r: u32)
    ensures b <= a ==> r == a - b
    ensures a < b ==> r == a - b + TWO_32
  {
    if b <= a then a - b else a - b + TWO_32
  }

  /** `a * b` evaluated in 32-bit unsigned arithmetic. */
  function Mul32(a: u32, b: u32): (r: u32)
    ensures a * b < TWO_32 ==> r == a * b
  {
    (a * b) % TWO_32
  }
}
