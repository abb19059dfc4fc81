/** Fixed-width integers and the small vocabulary every other module uses. */
module Machine {

  const MAX_U64: nat := 0xFFFF_FFFF_FFFF_FFFF

  /** The range of `std::uint64_t`. */
  type U64 = n: nat | n <= MAX_U64

  /** `++n` on a `std::uint64_t`: the largest value wraps to zero. */
  function Increment(n: U64): U64 {
    if n == MAX_U64 then 0 else n + 1
  }

  function Max(a: U64, b: U64): U64 {
    if a < b then b else a
  }

  datatype Option<+T> = None | Some(value: T)

  function MaxOpt(time: U64, other: Option<U64>): U64 {
    if other.Some? then Max(time, other.value) else time
  }

  function Digit(d: nat): char
    requires d < 10
  {
    "0123456789"[d]
  }

  /** `std::to_string`. */
  function Decimal(n: nat): (s: string)
    ensures s != ""
  {
    if n < 10 then [Digit(n)] else Decimal(n / 10) + [Digit(n % 10)]
  }
}
