/** Shared vocabulary: an optional value and the C integer widths the sources use. */
module Common {

  /** A C pointer that may be NULL, or a value that may be absent. */
  datatype Option<+T> = None | Some(value: T)

  /** 2^64: one more than the largest `uint64_t`. */
  const UINT64_MOD: int := 0x1_0000_0000_0000_0000

  /** `uint64_t` */
  type uint64 = x: int | 0 <= x < 0x1_0000_0000_0000_0000

  /** `unsigned int` (32 bits on every platform the sources target) */
  type uint32 = x: int | 0 <= x < 0x1_0000_0000

  /** `int64_t` / `long long` */
  type int64 = x: int | -0x8000_0000_0000_0000 <= x < 0x8000_0000_0000_0000
}
