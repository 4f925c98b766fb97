/** The virtual AMM: a constant-product curve over virtual reserves, scaled into quote
    units by a peg.  New quote reserves are rounded up, quote amounts down. */
module Curve {
  import opened Numbers

  /** Which way the base reserve moves: a seller adds base, a buyer removes it. */
  datatype SwapDirection = Add | Remove

  datatype SwapResult = SwapResult(newBase: u128, newQuote: u128, quote: u128)

  function CalculateSwap(b: u128, q: u128, peg: u128, size: u128, dir: SwapDirection): Result<SwapResult> {
    var _ :- Need(size > 0, InvalidAmount);
    var k :- FitU128(b * q);
    var newBase :- FitU128(if dir.Add? then b + size else b - size);
    var _ :- Need(newBase > 0, MathOverflow);
    var newQuote :- DivCeil(k, newBase);
    var delta :- FitU128(if dir.Remove? then newQuote - q else q - newQuote);
    var scaled :- FitU128(delta * peg);
    Ok(SwapResult(newBase, newQuote, scaled / BASE_PRECISION))
  }

  function ReservePrice(b: u128, q: u128, peg: u128): Result<u64> {
    var scaled :- FitU128(q * peg);
    var _ :- Need(b != 0, MathOverflow);
    FitU64(scaled / b)
  }

  /** Quote per whole base of a fill, as the slippage guard computes it. */
  function AveragePrice(quote: u128, size: u64): Result<u128> {
    var scaled :- FitU128(quote * BASE_PRECISION);
    var _ :- Need(size != 0, MathOverflow);
    FitU128(scaled / size)
  }

  // ------------------------------------------------------------ one swap

  /** The quote reserve the curve asks for at base reserve `newBase`. */
  function Requote(b: nat, q: nat, newBase: nat): nat
    requires newBase > 0
  {
    CeilDiv(b * q, newBase)
  }

  /** Buying never lowers the quote reserve and selling never raises it. */
  lemma RequoteDirection(b: nat, q: nat, newBase: nat)
    requires newBase > 0
    ensures newBase <= b ==> q <= Requote(b, q, newBase)
    ensures b <= newBase ==> Requote(b, q, newBase) <= q
    ensures newBase == b ==> Requote(b, q, newBase) == q
  {
    CeilGalois(q, b * q, newBase);
    CeilGalois(q - 1, b * q, newBase);
    if newBase <= b {
      MulMono(newBase, b, q);
      assert q > 0 ==> (q - 1) * newBase < b * q by {
        assert (q - 1) * newBase == newBase * q - newBase;
      }
      if q > 0 { assert Requote(b, q, newBase) > q - 1; }
    }
    if b <= newBase {
      MulMono(b, newBase, q);
      assert b * q <= q * newBase by { assert newBase * q == q * newBase; }
    }
  }

  /** The two subtractions of reserves inside a swap cannot fail: a swap is rejected
      exactly for an empty size, an exhausted base reserve, or a product that does not
      fit 128 bits. */
  lemma SwapAccepts(b: u128, q: u128, peg: u128, size: u128, dir: SwapDirection)
    ensures var newBase := if dir.Add? then b + size else b - size;
      CalculateSwap(b, q, peg, size, dir).Ok? <==>
        && size > 0
        && b * q <= U128_MAX
        && 0 < newBase <= U128_MAX
        && Abs(Requote(b, q, newBase) - q) * peg <= U128_MAX
  {
    if size > 0 && (if dir.Add? then b + size else b - size) > 0 {
      SwapAcceptsAt(b, q, peg, size, dir);
    } else {
      SwapRejects(b, q, peg, size, dir);
    }
  }

  lemma SwapAcceptsAt(b: u128, q: u128, peg: u128, size: u128, dir: SwapDirection)
    requires size > 0 && (if dir.Add? then b + size else b - size) > 0
    ensures var newBase := if dir.Add? then b + size else b - size;
      CalculateSwap(b, q, peg, size, dir).Ok? <==>
        b * q <= U128_MAX && newBase <= U128_MAX && Abs(Requote(b, q, newBase) - q) * peg <= U128_MAX
  {
    hide CalculateSwap, CeilDiv;
    var newBase := if dir.Add? then b + size else b - size;
    var newQuote := Requote(b, q, newBase);
    RequoteDirection(b, q, newBase);
    CeilShrinks(b * q, newBase);
    SwapSteps(b, q, peg, size, dir, b * q, newBase, newQuote);
    MulMono(0, Abs(newQuote - q), peg);
  }

  lemma SwapRejects(b: u128, q: u128, peg: u128, size: u128, dir: SwapDirection)
    requires size == 0 || (if dir.Add? then b + size else b - size) <= 0
    ensures CalculateSwap(b, q, peg, size, dir).Err?
  {
    hide DivCeil;
  }

  /** The checks of a swap one by one, with its product and new reserves named. */
  lemma SwapSteps(b: u128, q: u128, peg: u128, size: u128, dir: SwapDirection, k: int, newBase: int, newQuote: int)
    requires k == b * q && size > 0 && newBase == (if dir.Add? then b + size else b - size) > 0
    requires newQuote == CeilDiv(k, newBase)
    ensures var delta := if dir.Remove? then newQuote - q else q - newQuote;
      CalculateSwap(b, q, peg, size, dir).Ok? <==>
        && k <= U128_MAX && newBase <= U128_MAX && newQuote <= U128_MAX
        && 0 <= delta <= U128_MAX && 0 <= delta * peg <= U128_MAX
  {
    hide CeilDiv;
  }

  lemma CeilShrinks(a: nat, d: nat)
    requires d > 0
    ensures CeilDiv(a, d) <= a
  {
    MulMono(1, d, a);
    CeilGalois(a, a, d);
  }

  /** What a swap does, with the curve product it keeps: the product never decreases and
      grows by less than the new base reserve; reserves stay positive. */
  lemma SwapMovesAlongCurve(b: u128, q: u128, peg: u128, size: u128, dir: SwapDirection)
    requires CalculateSwap(b, q, peg, size, dir).Ok?
    requires b > 0 && q > 0
    ensures var s := CalculateSwap(b, q, peg, size, dir).value;
      && s.newBase == (if dir.Add? then b + size else b - size)
      && s.newBase > 0 && s.newQuote > 0
      && b * q <= s.newBase * s.newQuote < b * q + s.newBase
      && s.newQuote == Requote(b, q, s.newBase)
      && (if dir.Remove? then s.newQuote >= q else s.newQuote <= q)
      && s.quote == Abs(s.newQuote - q) * peg / BASE_PRECISION
      && s.quote <= U128_MAX / BASE_PRECISION
  {
    var s := CalculateSwap(b, q, peg, size, dir).value;
    CeilBounds(b * q, s.newBase);
    assert s.newBase * s.newQuote == s.newQuote * s.newBase;
    RequoteDirection(b, q, s.newBase);
    assert b * q >= 1 by { MulMono(1, b, q); }
    FloorMono(Abs(s.newQuote - q) * peg, U128_MAX, BASE_PRECISION);
  }

  /** The mark price is the quote reserve at the peg for each unit of the base reserve, rounded
      down; it fails exactly for an empty base reserve or a figure past its width. */
  lemma ReservePriceIff(b: u128, q: u128, peg: u128, mark: u64)
    ensures ReservePrice(b, q, peg) == Ok(mark)
      <==> b > 0 && q * peg <= U128_MAX && mark * b <= q * peg < (mark + 1) * b
    ensures ReservePrice(b, q, peg).Ok? <==> b > 0 && q * peg <= U128_MAX && q * peg < (U64_MAX + 1) * b
    ensures ReservePrice(b, q, peg).Ok? || ReservePrice(b, q, peg) == Err(MathOverflow)
  {
    MulMono(0, q, peg);
    if b > 0 {
      var scaled := q * peg;
      FloorGalois(mark, scaled, b);
      FloorGalois(mark + 1, scaled, b);
      FloorGalois(0, scaled, b);
      FloorGalois(U64_MAX + 1, scaled, b);
    }
  }

  /** The mark price moves weakly with the trade. */
  lemma SwapMovesMark(b: u128, q: u128, peg: u128, size: u128, dir: SwapDirection)
    requires CalculateSwap(b, q, peg, size, dir).Ok?
    requires b > 0 && q > 0
    ensures var s := CalculateSwap(b, q, peg, size, dir).value;
      if dir.Remove? then q * peg / b <= s.newQuote * peg / s.newBase
      else s.newQuote * peg / s.newBase <= q * peg / b
    ensures var s := CalculateSwap(b, q, peg, size, dir).value;
      var before, after := ReservePrice(b, q, peg), ReservePrice(s.newBase, s.newQuote, peg);
      before.Ok? && after.Ok? ==> if dir.Remove? then before.value <= after.value else after.value <= before.value
  {
    SwapMovesAlongCurve(b, q, peg, size, dir);
    var s := CalculateSwap(b, q, peg, size, dir).value;
    hide CalculateSwap;
    if dir.Remove? {
      FractionMono(q, b, s.newQuote, s.newBase, peg);
    } else {
      FractionMono(s.newQuote, s.newBase, q, b, peg);
    }
  }

  lemma FractionMono(q1: nat, b1: nat, q2: nat, b2: nat, peg: nat)
    requires q1 <= q2 && b1 >= b2 > 0
    ensures q1 * peg / b1 <= q2 * peg / b2
  {
    var f := q1 * peg / b1;
    FloorBounds(q1 * peg, b1);
    MulMono(q1, q2, peg);
    FloorGalois(0, q1 * peg, b1);
    MulMono(b2, b1, f);
    assert f * b2 <= q2 * peg;
    FloorGalois(f, q2 * peg, b2);
  }

  /** A buyer's average price lies between the marks before and after the trade, up to
      one rounding term on each side. */
  lemma BuyPriceBetweenMarks(b: u128, q: u128, peg: u128, size: u64)
    requires CalculateSwap(b, q, peg, size, Remove).Ok?
    requires b > 0 && q > 0
    ensures var s := CalculateSwap(b, q, peg, size, Remove).value;
      var avg := s.quote * BASE_PRECISION / size;
      && q * peg / b <= avg + CeilDiv(BASE_PRECISION - 1, size)
      && avg <= s.newQuote * peg / s.newBase + CeilDiv(peg, size)
  {
    SwapMovesAlongCurve(b, q, peg, size, Remove);
    var s := CalculateSwap(b, q, peg, size, Remove).value;
    assert Abs(s.newQuote - q) == s.newQuote - q;
    hide *;
    BuyBetween(b, q, s.newBase, s.newQuote, peg, size, s.quote);
  }

  lemma BuyBetween(b: nat, q: nat, newBase: nat, newQuote: nat, peg: nat, size: nat, quote: nat)
    requires size > 0 && newBase == b - size > 0 && newQuote >= q
    requires b * q <= newBase * newQuote < b * q + newBase
    requires quote == (newQuote - q) * peg / BASE_PRECISION
    ensures var avg := quote * BASE_PRECISION / size;
      && q * peg / b <= avg + CeilDiv(BASE_PRECISION - 1, size)
      && avg <= newQuote * peg / newBase + CeilDiv(peg, size)
  {
    hide CeilDiv;
    var avg := quote * BASE_PRECISION / size;
    FloorBounds((newQuote - q) * peg, BASE_PRECISION);
    FloorBounds(quote * BASE_PRECISION, size);
    BuyMove(b, q, newBase, newQuote, size);
    LowerMark(q, b, newQuote - q, newBase, peg, size, quote, avg);
    UpperMark(q, newQuote, newQuote - q, newBase, peg, size, quote, avg);
  }

  /** The exact change of the quote reserve on a buy. */
  lemma BuyMove(b: int, q: int, newBase: int, newQuote: int, size: int)
    requires newBase == b - size && b * q <= newBase * newQuote < b * q + newBase
    ensures q * size <= (newQuote - q) * newBase < q * size + newBase
  {
    Distribute(newQuote - q, q, newBase);
    Commute(newQuote, newBase);
    Distribute(newBase, size, q);
    Commute(newBase, q);
    Commute(size, q);
  }

  /** The exact change of the quote reserve on a sell. */
  lemma SellMove(b: int, q: int, newBase: int, newQuote: int, size: int)
    requires newBase == b + size && b * q <= newBase * newQuote < b * q + newBase
    ensures q * size - newBase < (q - newQuote) * newBase <= q * size
  {
    Distribute(q - newQuote, newQuote, newBase);
    Commute(newQuote, newBase);
    Distribute(b, size, q);
    Commute(newBase, q);
    Commute(size, q);
  }

  lemma LowerMark(q: nat, b: nat, d: nat, newBase: nat, peg: nat, size: nat, quote: nat, avg: nat)
    requires b >= newBase > 0 && size > 0
    requires q * size <= d * newBase
    requires d * peg < quote * BASE_PRECISION + BASE_PRECISION
    requires quote * BASE_PRECISION < avg * size + size
    ensures q * peg / b <= avg + CeilDiv(BASE_PRECISION - 1, size)
  {
    var mark := q * peg / b;
    var c := CeilDiv(BASE_PRECISION - 1, size);
    CeilBounds(BASE_PRECISION - 1, size);
    hide CeilDiv;
    FloorBounds(q * peg, b);
    MulMono(newBase, b, mark);
    Commute(b, mark);
    Commute(newBase, mark);
    LowerGap(q, d, newBase, peg, size, mark);
    GapSum(mark, avg, c, size, quote, d * peg, 0);
  }

  lemma LowerGap(q: nat, d: nat, newBase: nat, peg: nat, size: nat, mark: int)
    requires newBase > 0
    requires q * size <= d * newBase
    requires mark * newBase <= q * peg
    ensures mark * size <= d * peg
  {
    if mark * size > d * peg { StrictMul(d * peg, mark * size, newBase); }
    MulMono(q * size, d * newBase, peg);
    MulMono(mark * newBase, q * peg, size);
    Swap3(mark, size, newBase);
    Swap3(d, peg, newBase);
    Swap3(q, size, peg);
  }

  lemma UpperMark(q: nat, newQuote: nat, d: nat, newBase: nat, peg: nat, size: nat, quote: nat, avg: nat)
    requires newBase > 0 && size > 0 && newQuote >= q
    requires d * newBase < q * size + newBase
    requires quote * BASE_PRECISION <= d * peg
    requires avg * size <= quote * BASE_PRECISION
    ensures avg <= newQuote * peg / newBase + CeilDiv(peg, size)
  {
    var mark := newQuote * peg / newBase;
    var c := CeilDiv(peg, size);
    CeilBounds(peg, size);
    FloorBounds(newQuote * peg, newBase);
    MulMono(q, newQuote, peg);
    Distribute(mark, 1, newBase);
    UpperGap(q, d, newBase, peg, size, mark + 1);
    Distribute(mark + 1, c, size);
    FloorLimit(avg, mark + 1 + c, size);
  }

  lemma FloorLimit(x: int, y: int, d: int)
    requires d > 0 && x * d < y * d
    ensures x < y
  {
    if y <= x { MulMono(y, x, d); }
  }

  lemma UpperGap(q: nat, d: nat, newBase: nat, peg: nat, size: nat, mark: nat)
    requires size > 0
    requires d * newBase < q * size + newBase
    requires mark * newBase > q * peg
    ensures d * peg < mark * size + peg
  {
    if d * peg >= mark * size + peg { MulMono(mark * size + peg, d * peg, newBase); }
    MulMono(d * newBase, q * size + newBase, peg);
    StrictMul(q * peg, mark * newBase, size);
    Swap3(mark, size, newBase);
    Swap3(d, peg, newBase);
    Swap3(q, size, peg);
    Distribute(mark * size, peg, newBase);
    Distribute(q * size, newBase, peg);
    Commute(peg, newBase);
  }

  lemma Distribute(x: int, y: int, z: int)
    ensures (x + y) * z == x * z + y * z
  {
  }

  lemma Commute(x: int, y: int)
    ensures x * y == y * x
  {
  }

  lemma Swap3(x: int, y: int, z: int)
    ensures (x * y) * z == (x * z) * y
  {
  }

  lemma StrictMul(x: int, y: int, d: int)
    requires x < y && d > 0
    ensures x * d < y * d
  {
  }

  /** A seller's average price never exceeds the mark before the trade and misses the mark
      after it by at most one rounding term. */
  lemma SellPriceBetweenMarks(b: u128, q: u128, peg: u128, size: u64)
    requires CalculateSwap(b, q, peg, size, Add).Ok?
    requires b > 0 && q > 0
    ensures var s := CalculateSwap(b, q, peg, size, Add).value;
      var avg := s.quote * BASE_PRECISION / size;
      && s.newQuote * peg / s.newBase <= avg + CeilDiv(peg + BASE_PRECISION - 1, size)
      && avg <= q * peg / b
  {
    SwapMovesAlongCurve(b, q, peg, size, Add);
    var s := CalculateSwap(b, q, peg, size, Add).value;
    assert Abs(s.newQuote - q) == q - s.newQuote;
    hide *;
    SellBetween(b, q, s.newBase, s.newQuote, peg, size, s.quote);
  }

  lemma SellBetween(b: nat, q: nat, newBase: nat, newQuote: nat, peg: nat, size: nat, quote: nat)
    requires size > 0 && newBase == b + size && b > 0 && newQuote <= q
    requires b * q <= newBase * newQuote < b * q + newBase
    requires quote == (q - newQuote) * peg / BASE_PRECISION
    ensures var avg := quote * BASE_PRECISION / size;
      && newQuote * peg / newBase <= avg + CeilDiv(peg + BASE_PRECISION - 1, size)
      && avg <= q * peg / b
  {
    hide CeilDiv;
    var avg := quote * BASE_PRECISION / size;
    FloorBounds((q - newQuote) * peg, BASE_PRECISION);
    FloorBounds(quote * BASE_PRECISION, size);
    SellMove(b, q, newBase, newQuote, size);
    SellUpper(q, b, q - newQuote, newBase, peg, size, avg);
    SellLower(q, newQuote, q - newQuote, newBase, peg, size, quote, avg);
  }

  lemma SellUpper(q: nat, b: nat, d: nat, newBase: nat, peg: nat, size: nat, avg: nat)
    requires newBase >= b > 0 && size > 0
    requires d * newBase <= q * size
    requires avg * size <= d * peg
    ensures avg <= q * peg / b
  {
    MulMono(avg * size, d * peg, newBase);
    MulMono(d * newBase, q * size, peg);
    Swap3(d, peg, newBase);
    Swap3(q, size, peg);
    Swap3(avg, size, newBase);
    assert (avg * newBase) * size <= (q * peg) * size;
    if avg * newBase > q * peg { StrictMul(q * peg, avg * newBase, size); }
    MulMono(b, newBase, avg);
    FloorGalois(avg, q * peg, b);
  }

  lemma SellLower(q: nat, newQuote: nat, d: nat, newBase: nat, peg: nat, size: nat, quote: nat, avg: nat)
    requires newBase > 0 && size > 0 && newQuote <= q
    requires q * size < d * newBase + newBase
    requires d * peg < quote * BASE_PRECISION + BASE_PRECISION
    requires quote * BASE_PRECISION < avg * size + size
    ensures newQuote * peg / newBase <= avg + CeilDiv(peg + BASE_PRECISION - 1, size)
  {
    var mark := newQuote * peg / newBase;
    var c := CeilDiv(peg + BASE_PRECISION - 1, size);
    CeilBounds(peg + BASE_PRECISION - 1, size);
    hide CeilDiv;
    FloorBounds(newQuote * peg, newBase);
    MulMono(newQuote, q, peg);
    SellGap(q, d, newBase, peg, size, mark);
    GapSum(mark, avg, c, size, quote, d * peg, peg);
  }

  /** From the gap in quote units to the gap in price. */
  lemma GapSum(mark: int, avg: int, c: int, size: int, quote: int, moved: int, peg: int)
    requires size > 0 && mark * size <= moved + peg
    requires moved < quote * BASE_PRECISION + BASE_PRECISION
    requires quote * BASE_PRECISION < avg * size + size
    requires peg + BASE_PRECISION - 1 <= c * size
    ensures mark <= avg + c
  {
    Distribute(avg, c, size);
    Distribute(avg + c, 1, size);
    FloorLimit(mark, avg + c + 1, size);
  }

  lemma SellGap(q: nat, d: nat, newBase: nat, peg: nat, size: nat, mark: int)
    requires newBase > 0
    requires q * size < d * newBase + newBase
    requires mark * newBase <= q * peg
    ensures mark * size <= d * peg + peg
  {
    if mark * size > d * peg + peg { StrictMul(d * peg + peg, mark * size, newBase); }
    MulMono(q * size, d * newBase + newBase, peg);
    MulMono(mark * newBase, q * peg, size);
    Swap3(mark, size, newBase);
    Swap3(d, peg, newBase);
    Swap3(q, size, peg);
    Distribute(d * peg, peg, newBase);
    Distribute(d * newBase, newBase, peg);
    Commute(peg, newBase);
  }

  // ------------------------------------------------------------ who gains by rounding

  /** A seller never receives more than the exact curve pays for the size. */
  lemma SellerNeverOverpaid(b: u128, q: u128, peg: u128, size: u128)
    requires CalculateSwap(b, q, peg, size, Add).Ok? && b > 0 && q > 0
    ensures var s := CalculateSwap(b, q, peg, size, Add).value;
      s.quote * BASE_PRECISION * s.newBase <= q * size * peg
  {
    SwapMovesAlongCurve(b, q, peg, size, Add);
    var s := CalculateSwap(b, q, peg, size, Add).value;
    assert Abs(s.newQuote - q) == q - s.newQuote;
    hide *;
    SellMove(b, q, s.newBase, s.newQuote, size);
    FloorBounds((q - s.newQuote) * peg, BASE_PRECISION);
    MulMono(s.quote * BASE_PRECISION, (q - s.newQuote) * peg, s.newBase);
    MulMono((q - s.newQuote) * s.newBase, q * size, peg);
    Swap3(q - s.newQuote, peg, s.newBase);
  }

  /** Adding whole multiples of the divisor adds them to the rounded-up quotient. */
  lemma CeilShift(c: nat, a: nat, d: nat)
    requires d > 0
    ensures CeilDiv(c * d + a, d) == c + CeilDiv(a, d)
  {
    var e := CeilDiv(a, d);
    CeilGalois(c + e, c * d + a, d);
    CeilGalois(c + e - 1, c * d + a, d);
    CeilGalois(e, a, d);
    CeilGalois(e as int - 1, a, d);
    Distribute(c, e, d);
    Distribute(c, e as int - 1, d);
  }

  /** What a buy moves and pays, in its inputs alone. */
  lemma BuyInInputs(b: u128, q: u128, peg: u128, size: u128)
    requires CalculateSwap(b, q, peg, size, Remove).Ok? && b > 0 && q > 0
    ensures size < b
    ensures var s := CalculateSwap(b, q, peg, size, Remove).value;
      var moved := CeilDiv(q * size, b - size);
      && s.newBase == b - size && s.newQuote == q + moved && s.quote == moved * peg / BASE_PRECISION
      && q * size <= moved * (b - size)
  {
    SwapMovesAlongCurve(b, q, peg, size, Remove);
    var s := CalculateSwap(b, q, peg, size, Remove).value;
    assert Abs(s.newQuote - q) == s.newQuote - q;
    assert s.newQuote == CeilDiv(b * q, s.newBase);
    hide CalculateSwap, Requote;
    CeilBounds(q * size, b - size);
    hide CeilDiv;
    Distribute(s.newBase, size, q);
    Commute(s.newBase, q);
    Commute(size, q);
    CeilShift(q, q * size, s.newBase);
  }

  /** The reserve is rounded against a buyer, but the quote is then rounded down.  A buyer of
      `size` pays at least the exact curve price if and only if the second rounding takes no
      more than the first gave, both known before the trade.  The buyer is never a whole quote
      unit short. */
  lemma BuyerPaysCurveIff(b: u128, q: u128, peg: u128, size: u128)
    requires CalculateSwap(b, q, peg, size, Remove).Ok? && b > 0 && q > 0
    ensures size < b
    ensures var quote := CalculateSwap(b, q, peg, size, Remove).value.quote;
      var left := b - size;
      var moved := CeilDiv(q * size, left);
      && (quote * BASE_PRECISION * left >= q * size * peg
          <==> (moved * peg % BASE_PRECISION) * left <= (moved * left - q * size) * peg)
      && (quote + 1) * BASE_PRECISION * left > q * size * peg
  {
    BuyInInputs(b, q, peg, size);
    var left := b - size;
    var moved := CeilDiv(q * size, left);
    var quote := CalculateSwap(b, q, peg, size, Remove).value.quote;
    hide *;
    var dust := moved * peg % BASE_PRECISION;
    assert moved * peg == quote * BASE_PRECISION + dust;
    Distribute(quote * BASE_PRECISION, dust, left);
    Swap3(moved, peg, left);
    Distribute(moved * left - q * size, q * size, peg);
    Distribute(quote, 1, BASE_PRECISION);
    StrictMul(moved * peg, (quote + 1) * BASE_PRECISION, left);
    MulMono(q * size, moved * left, peg);
  }

  /** Every accepted buy at this peg pays at least the exact curve price. */
  ghost predicate BuysPayCurve(peg: u128) {
    forall b: u128, q: u128, size: u128 ::
      b > 0 && q > 0 && CalculateSwap(b, q, peg, size, Remove).Ok? ==>
        var s := CalculateSwap(b, q, peg, size, Remove).value;
        s.quote * BASE_PRECISION * s.newBase >= q * size * peg
  }

  /** Rounding never favours a buyer if and only if the peg, fixed when the market is created,
      is a multiple of the base precision. */
  lemma BuysPayCurveIff(peg: u128)
    ensures BuysPayCurve(peg) <==> peg % BASE_PRECISION == 0
  {
    if peg % BASE_PRECISION == 0 {
      forall b: u128, q: u128, size: u128 | b > 0 && q > 0 && CalculateSwap(b, q, peg, size, Remove).Ok?
        ensures var s := CalculateSwap(b, q, peg, size, Remove).value;
          s.quote * BASE_PRECISION * s.newBase >= q * size * peg
      {
        WholePegPays(b, q, peg, size);
      }
    } else {
      assert CalculateSwap(2, 1, peg, 1, Remove) == Ok(SwapResult(1, 2, peg / BASE_PRECISION));
    }
  }

  lemma WholePegPays(b: u128, q: u128, peg: u128, size: u128)
    requires CalculateSwap(b, q, peg, size, Remove).Ok? && b > 0 && q > 0 && peg % BASE_PRECISION == 0
    ensures var s := CalculateSwap(b, q, peg, size, Remove).value;
      s.quote * BASE_PRECISION * s.newBase >= q * size * peg
  {
    BuyInInputs(b, q, peg, size);
    BuyerPaysCurveIff(b, q, peg, size);
    hide CalculateSwap, CeilDiv;
    var left := b - size;
    var moved := CeilDiv(q * size, left);
    WholeMultiple(moved, peg);
    MulMono(0, moved * left - q * size, peg);
  }

  lemma WholeMultiple(c: nat, peg: nat)
    requires peg % BASE_PRECISION == 0
    ensures c * peg % BASE_PRECISION == 0
  {
    var whole := peg / BASE_PRECISION;
    assert peg == whole * BASE_PRECISION;
    Swap3(c, whole, BASE_PRECISION);
    assert c * peg == (c * whole) * BASE_PRECISION;
  }

  /** The balanced reserves every market starts with do not help: at any other peg a buy of
      2 from a depth of 6 pays less than the curve asks. */
  lemma UnderpaidOnFreshReserves(peg: u128)
    requires peg % BASE_PRECISION != 0 && 3 * peg <= U128_MAX
    ensures CalculateSwap(6, 6, peg, 2, Remove) == Ok(SwapResult(4, 9, 3 * peg / BASE_PRECISION))
    ensures 3 * peg / BASE_PRECISION * BASE_PRECISION * 4 < 6 * 2 * peg
  {
  }

  // ------------------------------------------------------------ splitting a trade

  /** Consecutive swaps in one direction; each entry is a fill. */
  datatype Path = Path(base: nat, quoteReserve: nat, quote: nat)

  ghost predicate Feasible(b: int, dir: SwapDirection, sizes: seq<nat>)
  {
    && (forall i :: 0 <= i < |sizes| ==> sizes[i] > 0)
    && (dir.Remove? ==> Volume(sizes) < b)
  }

  ghost function Volume(sizes: seq<nat>): nat {
    if sizes == [] then 0 else Volume(sizes[..|sizes| - 1]) + sizes[|sizes| - 1]
  }

  /** The path extended by one swap. */
  ghost function Swapped(p: Path, peg: nat, dir: SwapDirection, size: nat): (r: Path)
    requires p.base > 0 && (dir.Remove? ==> size < p.base)
    ensures r.base == (if dir.Add? then p.base + size else p.base - size)
  {
    var base := if dir.Add? then p.base + size else p.base - size;
    var quoteReserve := Requote(p.base, p.quoteReserve, base);
    Path(base, quoteReserve, p.quote + Abs(quoteReserve - p.quoteReserve) * peg / BASE_PRECISION)
  }

  /** Reserves and accumulated quote after trading `sizes` one after the other. */
  ghost function Trade(b: nat, q: nat, peg: nat, dir: SwapDirection, sizes: seq<nat>): (p: Path)
    requires b > 0 && Feasible(b, dir, sizes)
    ensures p.base == (if dir.Add? then b + Volume(sizes) else b - Volume(sizes))
    ensures p.base > 0
  {
    if sizes == [] then Path(b, q, 0)
    else
      var n := |sizes| - 1;
      Swapped(Trade(b, q, peg, dir, sizes[..n]), peg, dir, sizes[n])
  }

  /** However a volume is split, the product never falls below the starting one, so the
      quote reserve ends no lower than after the single trade. */
  lemma {:induction false} SplitKeepsReserve(b: nat, q: nat, peg: nat, dir: SwapDirection, sizes: seq<nat>)
    requires b > 0 && Feasible(b, dir, sizes)
    ensures var p := Trade(b, q, peg, dir, sizes);
      && p.base * p.quoteReserve >= b * q
      && p.quoteReserve >= Requote(b, q, p.base)
      && (if dir.Add? then p.quoteReserve <= q else p.quoteReserve >= q)
  {
    if sizes == [] {
      KeptReserve(b, q, b, q);
    } else {
      var n := |sizes| - 1;
      SplitKeepsReserve(b, q, peg, dir, sizes[..n]);
      var p0 := Trade(b, q, peg, dir, sizes[..n]);
      var p := Trade(b, q, peg, dir, sizes);
      assert p.quoteReserve == Requote(p0.base, p0.quoteReserve, p.base);
      hide Trade, Volume, Feasible, Requote;
      RequoteKeeps(p0.base, p0.quoteReserve, p.base);
      RequoteDirection(p0.base, p0.quoteReserve, p.base);
      KeptReserve(b, q, p.base, p.quoteReserve);
    }
  }

  /** A requote never lowers the product. */
  lemma RequoteKeeps(b: nat, q: nat, newBase: nat)
    requires newBase > 0
    ensures newBase * Requote(b, q, newBase) >= b * q
  {
    CeilBounds(b * q, newBase);
    Commute(newBase, Requote(b, q, newBase));
  }

  /** Reserves with a product of at least `b * q` hold at least what the curve asks for. */
  lemma KeptReserve(b: nat, q: nat, base: nat, quoteReserve: nat)
    requires base > 0 && base * quoteReserve >= b * q
    ensures quoteReserve >= Requote(b, q, base)
  {
    Commute(base, quoteReserve);
    CeilGalois(quoteReserve, b * q, base);
  }

  /** The quote of a path brackets the peg-scaled move of the quote reserve. */
  lemma {:induction false} PathQuote(b: nat, q: nat, peg: nat, dir: SwapDirection, sizes: seq<nat>)
    requires b > 0 && Feasible(b, dir, sizes)
    ensures var p := Trade(b, q, peg, dir, sizes);
      var moved := Abs(p.quoteReserve - q) * peg;
      moved - |sizes| * (BASE_PRECISION - 1) <= p.quote * BASE_PRECISION <= moved
  {
    hide Requote, Volume;
    SplitKeepsReserve(b, q, peg, dir, sizes);
    if sizes == [] {
    } else {
      var n := |sizes| - 1;
      PathQuote(b, q, peg, dir, sizes[..n]);
      SplitKeepsReserve(b, q, peg, dir, sizes[..n]);
      var p0 := Trade(b, q, peg, dir, sizes[..n]);
      var p := Trade(b, q, peg, dir, sizes);
      RequoteDirection(p0.base, p0.quoteReserve, p.base);
      var step := Abs(p.quoteReserve - p0.quoteReserve);
      FloorBounds(step * peg, BASE_PRECISION);
      assert p.quote == p0.quote + step * peg / BASE_PRECISION;
      hide Trade, Feasible;
      Distribute(Abs(p0.quoteReserve - q), step, peg);
    }
  }

  /** Splitting a trade never helps beyond rounding: `n` buys cost at least the single
      buy of the sum minus `n - 1` units, and `n` sells never earn more than the single sell. */
  lemma {:induction false} SplittingNeverHelps(b: nat, q: nat, peg: nat, dir: SwapDirection, sizes: seq<nat>)
    requires b > 0 && sizes != [] && Feasible(b, dir, sizes)
    ensures Feasible(b, dir, [Volume(sizes)])
    ensures var whole := Trade(b, q, peg, dir, [Volume(sizes)]);
      var split := Trade(b, q, peg, dir, sizes);
      && split.base == whole.base
      && split.quoteReserve >= whole.quoteReserve
      && (dir.Remove? ==> split.quote >= whole.quote - (|sizes| - 1))
      && (dir.Add? ==> split.quote <= whole.quote)
  {
    VolumePositive(sizes);
    var v := Volume(sizes);
    assert [v][..0] == [];
    assert Volume([v]) == v;
    assert Trade(b, q, peg, dir, [v][..0]) == Path(b, q, 0);
    var whole := Trade(b, q, peg, dir, [v]);
    var split := Trade(b, q, peg, dir, sizes);
    SplitKeepsReserve(b, q, peg, dir, sizes);
    SplitKeepsReserve(b, q, peg, dir, [v]);
    PathQuote(b, q, peg, dir, sizes);
    assert whole.quote == Abs(whole.quoteReserve - q) * peg / BASE_PRECISION;
    FloorBounds(Abs(whole.quoteReserve - q) * peg, BASE_PRECISION);
    var n := |sizes|;
    if dir.Remove? {
      MulMono(Abs(whole.quoteReserve - q), Abs(split.quoteReserve - q), peg);
    } else {
      MulMono(Abs(split.quoteReserve - q), Abs(whole.quoteReserve - q), peg);
      FloorGalois(split.quote, Abs(whole.quoteReserve - q) * peg, BASE_PRECISION);
    }
  }

  /** Reserves and quote after swaps the AMM has answered one after the other. */
  datatype Chain = Chain(base: u128, quoteReserve: u128, quote: nat)

  ghost function SwapChain(b: u128, q: u128, peg: u128, dir: SwapDirection, sizes: seq<u128>): Result<Chain> {
    if sizes == [] then Ok(Chain(b, q, 0))
    else
      var n := |sizes| - 1;
      var c :- SwapChain(b, q, peg, dir, sizes[..n]);
      var s :- CalculateSwap(c.base, c.quoteReserve, peg, sizes[n], dir);
      Ok(Chain(s.newBase, s.newQuote, c.quote + s.quote))
  }

  /** An accepted swap extends a path by one step. */
  lemma SwapExtends(p: Path, peg: u128, dir: SwapDirection, size: u128, s: SwapResult)
    requires 0 < p.base <= U128_MAX && 0 < p.quoteReserve <= U128_MAX
    requires CalculateSwap(p.base, p.quoteReserve, peg, size, dir) == Ok(s)
    ensures size > 0 && (dir.Remove? ==> size < p.base) && s.newBase > 0 && s.newQuote > 0
    ensures Swapped(p, peg, dir, size) == Path(s.newBase, s.newQuote, p.quote + s.quote)
  {
    SwapMovesAlongCurve(p.base, p.quoteReserve, peg, size, dir);
  }

  /** A chain of accepted swaps is the path of its sizes. */
  lemma {:induction false} ChainIsTrade(b: u128, q: u128, peg: u128, dir: SwapDirection, sizes: seq<u128>)
    requires b > 0 && q > 0 && SwapChain(b, q, peg, dir, sizes).Ok?
    ensures Feasible(b, dir, sizes)
    ensures var c := SwapChain(b, q, peg, dir, sizes).value;
      && c.base > 0 && c.quoteReserve > 0
      && Trade(b, q, peg, dir, sizes) == Path(c.base, c.quoteReserve, c.quote)
  {
    hide CalculateSwap, Swapped, Requote;
    if sizes == [] {
    } else {
      var n := |sizes| - 1;
      ChainIsTrade(b, q, peg, dir, sizes[..n]);
      var c := SwapChain(b, q, peg, dir, sizes[..n]).value;
      var s := CalculateSwap(c.base, c.quoteReserve, peg, sizes[n], dir).value;
      SwapExtends(Path(c.base, c.quoteReserve, c.quote), peg, dir, sizes[n], s);
      FeasibleMore(b, dir, sizes);
    }
  }

  lemma FeasibleMore(b: nat, dir: SwapDirection, sizes: seq<nat>)
    requires sizes != [] && Feasible(b, dir, sizes[..|sizes| - 1]) && sizes[|sizes| - 1] > 0
    requires dir.Remove? ==> sizes[|sizes| - 1] < b - Volume(sizes[..|sizes| - 1])
    ensures Feasible(b, dir, sizes)
  {
    forall i | 0 <= i < |sizes|
      ensures sizes[i] > 0
    {
      if i < |sizes| - 1 { assert sizes[i] == sizes[..|sizes| - 1][i]; }
    }
  }

  /** Accepted swaps of one direction against the accepted swap of their sum: the reserve ends
      no lower, `n` buys cost at least the single buy less `n - 1` units, and `n` sells never
      earn more than the single sell. */
  lemma {:induction false} SplitSwapsNeverHelp(
    b: u128, q: u128, peg: u128, dir: SwapDirection, sizes: seq<u128>, whole: u128)
    requires b > 0 && q > 0 && sizes != [] && SwapChain(b, q, peg, dir, sizes).Ok?
    requires whole == Volume(sizes) && CalculateSwap(b, q, peg, whole, dir).Ok?
    ensures var split := SwapChain(b, q, peg, dir, sizes).value;
      var once := CalculateSwap(b, q, peg, whole, dir).value;
      && split.base == once.newBase && split.quoteReserve >= once.newQuote
      && (dir.Remove? ==> split.quote >= once.quote - (|sizes| - 1))
      && (dir.Add? ==> split.quote <= once.quote)
  {
    ChainIsTrade(b, q, peg, dir, sizes);
    ChainIsTrade(b, q, peg, dir, [whole]);
    SingleChain(b, q, peg, dir, whole);
    hide SwapChain, CalculateSwap, Trade, Feasible;
    SplittingNeverHelps(b, q, peg, dir, sizes);
  }

  lemma {:induction false} SingleChain(b: u128, q: u128, peg: u128, dir: SwapDirection, size: u128)
    ensures SwapChain(b, q, peg, dir, [size])
      == match CalculateSwap(b, q, peg, size, dir)
         case Ok(s) => Ok(Chain(s.newBase, s.newQuote, s.quote))
         case Err(e) => Err(e)
  {
    assert [size][..0] == [];
    assert SwapChain(b, q, peg, dir, [size][..0]) == Ok(Chain(b, q, 0));
    hide CalculateSwap;
  }

  lemma {:induction false} VolumePositive(sizes: seq<nat>)
    requires sizes != [] && forall i :: 0 <= i < |sizes| ==> sizes[i] > 0
    ensures Volume(sizes) > 0
  {
  }

  // ------------------------------------------------------------ a round trip

  /** Trading away from a base reserve and back: the quote reserve ends no lower than it
      started, and higher by at most the stated number of reserve units. */
  lemma RoundTripReserve(b: nat, q: nat, away: nat)
    requires b > 0 && away > 0
    ensures var q1 := Requote(b, q, away);
      var q2 := Requote(away, q1, b);
      q <= q2 <= q + CeilDiv(away - 1, b)
  {
    var q1 := Requote(b, q, away);
    var q2 := Requote(away, q1, b);
    CeilBounds(b * q, away);
    assert away * q1 == q1 * away;
    CeilGalois(q - 1, away * q1, b);
    assert (q - 1) * b == b * q - b;
    var c := CeilDiv(away - 1, b);
    CeilBounds(away - 1, b);
    assert (q + c) * b == b * q + c * b;
    CeilGalois(q + c, away * q1, b);
  }
}
