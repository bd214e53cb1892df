/** Machine-level vocabulary shared by the Rust record builder and the C++
    decoder headers: fixed-width integers, wrap-around arithmetic on 64-bit
    values, truncating casts to a byte, nullable pointers and the process
    address space that a raw pointer reads from. */
module CTypes {

  const TWO_8: int := 0x100
  const TWO_64: int := 0x1_0000_0000_0000_0000

  /** A byte; bitmask fields of the record are bytes. */
  type byte = bv8

  newtype u16 = x: int | 0 <= x < 0x1_0000
  newtype u32 = x: int | 0 <= x < 0x1_0000_0000
  newtype u64 = x: int | 0 <= x < 0x1_0000_0000_0000_0000
  newtype i32 = x: int | -0x8000_0000 <= x < 0x8000_0000

  /** A nullable pointer, or the object behind it: None is the null pointer. */
  datatype Option<+T> = None | Some(value: T)

  /** `a.wrapping_add(b)` / unsigned `a + b` on 64-bit values. */
  function WrapAdd(a: u64, b: u64): (r: u64)
    ensures r as int == a as int + b as int || r as int == a as int + b as int - TWO_64
  {
    if a as int + b as int < TWO_64 then a + b else (a as int + b as int - TWO_64) as u64
  }

  /** `a.wrapping_sub(b)` / unsigned `a - b` on 64-bit values: the unique
      64-bit value that gives back `a` when `b` is added to it again. */
  function WrapSub(a: u64, b: u64): (r: u64)
    ensures WrapAdd(r, b) == a
    ensures b <= a ==> r as int == a as int - b as int
    ensures a < b ==> r as int == a as int - b as int + TWO_64
  {
    if b <= a then a - b else (a as int - b as int + TWO_64) as u64
  }

  /** Subtracting is the only inverse of adding: any `d` with `d + b == a`
      (mod 2^64) is `a - b` (mod 2^64). */
  lemma WrapSubUnique(a: u64, b: u64, d: u64)
    requires WrapAdd(d, b) == a
    ensures d == WrapSub(a, b)
  {
  }

  /** The byte whose value is `m`, built up by counting. */
  function ByteOf(m: nat): (r: byte)
    requires m < TWO_8
    ensures r as int == m
  {
    if m == 0 then 0 else
      var b := ByteOf(m - 1);
      assert b < 0xFF;
      b + 1
  }

  /** An `as u8` cast of a non-negative integer: keeps the low eight bits,
      so the byte is the value modulo 2^8. */
  function TruncByte(n: nat): (r: byte)
    ensures r as int == n % TWO_8
    ensures n < TWO_8 ==> r as int == n
  {
    ByteOf(n % TWO_8)
  }

  /** `unsigned_abs()` of a 32-bit signed integer. */
  function UnsignedAbs(x: i32): (r: u32)
    ensures r as int == x as int || r as int == -(x as int)
  {
    if x < 0 then (-(x as int)) as u32 else x as int as u32
  }

  /** The process address space as seen through raw pointers. */
  type AddressSpace = u64 -> byte

  /** The `n` bytes a pointer `p` designates, `p[0] .. p[n - 1]`; addresses
      wrap around the top of the address space like pointer arithmetic on a
      64-bit target. */
  function ReadBytes(mem: AddressSpace, p: u64, n: u64): (s: seq<byte>)
    ensures |s| == n as int
  {
    seq(n, i requires 0 <= i < n as int => mem(WrapAdd(p, i as u64)))
  }
}
