/** Bounded integers, checked arithmetic and the error type of the program.

    The program computes with Rust integers: every value-moving operation is
    checked and surfaces `MathOverflow`, division truncates toward zero, and `as`
    casts wrap.  Values are modelled as mathematical integers confined to their
    width; each checked operation is written `FitT(exact value)`. */
module Numbers {

  const U64_MAX: int := 0xFFFF_FFFF_FFFF_FFFF
  const U128_MAX: int := 0xFFFF_FFFF_FFFF_FFFF_FFFF_FFFF_FFFF_FFFF
  const I64_MAX: int := 0x7FFF_FFFF_FFFF_FFFF
  const I64_MIN: int := -0x8000_0000_0000_0000
  const I128_MAX: int := 0x7FFF_FFFF_FFFF_FFFF_FFFF_FFFF_FFFF_FFFF
  const I128_MIN: int := -0x8000_0000_0000_0000_0000_0000_0000_0000
  const U32_SPAN: int := 0x1_0000_0000

  type u8 = x: int | 0 <= x <= 0xFF
  type u16 = x: int | 0 <= x <= 0xFFFF
  type u32 = x: int | 0 <= x < U32_SPAN
  type u64 = x: int | 0 <= x <= U64_MAX
  type u128 = x: int | 0 <= x <= U128_MAX
  type i64 = x: int | I64_MIN <= x <= I64_MAX
  type i128 = x: int | I128_MIN <= x <= I128_MAX

  /** Fixed-point scales.  Base amounts and AMM reserves share one scale. */
  const BASE_PRECISION := 1_000_000_000
  const MARGIN_PRECISION := 10_000
  const BPS_DENOMINATOR := 10_000
  const FUNDING_RATE_PRECISION := 1_000_000_000
  /** Per-period clamp on the funding rate: 0.5% of the index price. */
  const MAX_FUNDING_RATE := 5_000_000
  const DAY_SECONDS := 86_400

  datatype ErrorCode =
    | ProtocolPaused
    | MarketNotActive
    | MathOverflow
    | InvalidAmount
    | InsufficientCollateral
    | InsufficientFreeCollateral
    | InvalidMarketIndex
    | InvalidOraclePrice
    | PositionNotFound
    | MaxPositionsReached
    | SlippageExceeded
    | OrderTooSmall
    | MaxOpenInterestExceeded
    | NotLiquidatable
    | BeingLiquidated
    | ReduceOnlyViolation
    | OrdersFull
    | OrderNotFound
    | UnsupportedOrderType
    | TriggerConditionNotMet
    | OrdersDoNotCross
    | SelfMatch
    | AccountNotInitialized  // raised by the platform, not by the program

  datatype Result<+T> = Ok(value: T) | Err(error: ErrorCode) {
    predicate IsFailure() { Err? }
    function PropagateFailure<U>(): Result<U>
      requires Err?
    {
      Err(error)
    }
    function Extract(): T
      requires Ok?
    {
      value
    }
  }

  function Need(condition: bool, error: ErrorCode): Result<()> {
    if condition then Ok(()) else Err(error)
  }

  datatype Option<+T> = None | Some(value: T)

  function FitU64(x: int): Result<u64> {
    if 0 <= x <= U64_MAX then Ok(x) else Err(MathOverflow)
  }

  function FitU128(x: int): Result<u128> {
    if 0 <= x <= U128_MAX then Ok(x) else Err(MathOverflow)
  }

  function FitI64(x: int): Result<i64> {
    if I64_MIN <= x <= I64_MAX then Ok(x) else Err(MathOverflow)
  }

  function FitI128(x: int): Result<i128> {
    if I128_MIN <= x <= I128_MAX then Ok(x) else Err(MathOverflow)
  }

  /** The wrapping casts `u64 as i64` and `u128 as i128`. */
  function AsI64(x: u64): i64 {
    if x <= I64_MAX then x else x - U64_MAX - 1
  }

  function AsI128(x: u128): i128 {
    if x <= I128_MAX then x else x - U128_MAX - 1
  }

  function Abs(x: int): nat {
    if x < 0 then -x else x
  }

  function Min(x: int, y: int): int {
    if x < y then x else y
  }

  function Max(x: int, y: int): int {
    if x < y then y else x
  }

  function Clamp(x: int, lo: int, hi: int): int {
    if x < lo then lo else if x > hi then hi else x
  }

  function SaturatingSub(x: nat, y: nat): nat {
    if y <= x then x - y else 0
  }

  /** Signed division as Rust does it: the quotient is truncated toward zero. */
  function TruncDiv(x: int, d: int): int
    requires d > 0
  {
    if x >= 0 then x / d else -((-x) / d)
  }

  /** Rounded-up quotient of naturals. */
  function CeilDiv(a: nat, d: nat): nat
    requires d > 0
  {
    if a == 0 then 0 else (a - 1) / d + 1
  }

  /** `div_ceil` of the program: the zero divisor is an error. */
  function DivCeil(a: u128, d: u128): Result<u128> {
    var _ :- Need(d != 0, MathOverflow);
    FitU128(CeilDiv(a, d))
  }

  // ------------------------------------------------------------ rounding laws

  lemma FloorBounds(a: int, d: int)
    requires d > 0
    ensures (a / d) * d <= a < (a / d) * d + d
  {
  }

  /** `c` lies at or below `a / d` exactly when `c * d <= a`. */
  lemma FloorGalois(c: int, a: int, d: int)
    requires d > 0
    ensures c <= a / d <==> c * d <= a
  {
    FloorBounds(a, d);
    var f := a / d;
    if c <= f {
      MulMono(c, f, d);
    } else {
      MulMono(f + 1, c, d);
    }
  }

  lemma MulMono(x: int, y: int, d: int)
    requires x <= y && d >= 0
    ensures x * d <= y * d
  {
  }

  lemma FloorMono(a: int, b: int, d: int)
    requires d > 0 && a <= b
    ensures a / d <= b / d
  {
    FloorBounds(a, d);
    FloorGalois(a / d, b, d);
  }

  lemma CeilBounds(a: nat, d: nat)
    requires d > 0
    ensures a <= CeilDiv(a, d) * d < a + d
  {
    if a > 0 {
      FloorBounds(a - 1, d);
    }
  }

  /** `c` lies at or above `a / d` exactly when `a <= c * d`. */
  lemma CeilGalois(c: int, a: nat, d: nat)
    requires d > 0
    ensures CeilDiv(a, d) <= c <==> a <= c * d
  {
    CeilBounds(a, d);
    var f := CeilDiv(a, d);
    if f <= c {
      MulMono(f, c, d);
    } else {
      MulMono(c, f - 1, d);
    }
  }

  lemma CeilMono(a: nat, b: nat, d: nat)
    requires d > 0 && a <= b
    ensures CeilDiv(a, d) <= CeilDiv(b, d)
  {
    CeilBounds(b, d);
    CeilGalois(CeilDiv(b, d), a, d);
  }

  lemma TruncUp(x: nat, d: int)
    requires d > 0
    ensures 0 <= TruncDiv(x, d) <= x
    ensures TruncDiv(x, d) * d <= x < TruncDiv(x, d) * d + d
  {
    FloorBounds(x, d);
    FloorGalois(0, x, d);
    MulMono(1, d, x / d);
  }

  /** Truncation leaves a remainder with the sign of the dividend, smaller than the divisor. */
  lemma TruncBounds(x: int, d: int)
    requires d > 0
    ensures x >= 0 ==> 0 <= TruncDiv(x, d) * d <= x < TruncDiv(x, d) * d + d
    ensures x <= 0 ==> TruncDiv(x, d) * d - d < x <= TruncDiv(x, d) * d <= 0
    ensures x >= 0 ==> TruncDiv(x, d) >= 0
    ensures x <= 0 ==> TruncDiv(x, d) <= 0
    ensures Abs(TruncDiv(x, d)) <= Abs(x)
  {
    var size := Abs(x);
    TruncUp(size, d);
    TruncOdd(size, d);
    var f := TruncDiv(size, d);
    hide TruncDiv;
    MulMono(0, f, d);
    assert (0 - f) * d == 0 - f * d;
  }

  lemma TruncOdd(x: int, d: int)
    requires d > 0
    ensures TruncDiv(-x, d) == -TruncDiv(x, d)
  {
  }

  lemma TruncMono(x: int, y: int, d: int)
    requires d > 0 && x <= y
    ensures TruncDiv(x, d) <= TruncDiv(y, d)
  {
    if x >= 0 {
      FloorMono(x, y, d);
    } else if y < 0 {
      FloorMono(-y, -x, d);
    } else {
      TruncBounds(x, d);
      TruncBounds(y, d);
    }
  }

  lemma TruncAbs(x: int, d: int)
    requires d > 0
    ensures Abs(TruncDiv(x, d)) == Abs(x) / d && (x > 0 ==> TruncDiv(x, d) >= 0) && (x < 0 ==> TruncDiv(x, d) <= 0)
  {
    FloorGalois(0, Abs(x), d);
  }

  lemma FloorWith(x: nat, y: nat, d: int)
    requires d > 0
    ensures (x + y) / d == x / d <==> x % d + y < d
    ensures x / d >= 0
  {
    FloorBounds(x, d);
    FloorBounds(x + y, d);
    FloorGalois(x / d, x + y, d);
    FloorGalois(x / d + 1, x + y, d);
    assert (x / d + 1) * d == x / d * d + d;
  }

  lemma FloorWithout(x: nat, y: nat, d: int)
    requires d > 0 && y <= x
    ensures (x - y) / d == x / d <==> y <= x % d
    ensures (x - y) / d >= 0
  {
    FloorMono(x - y, x, d);
    FloorGalois(x / d, x - y, d);
    FloorGalois(0, x - y, d);
  }
}
