/** Integer arithmetic of the engine: i128 atoms with checked operations.
    Every operation either gives the exact mathematical value or stops the
    calculation; the kind of error is kept, its text is not. */
module Checked {

  const I128_MIN: int := -0x8000_0000_0000_0000_0000_0000_0000_0000
  const I128_MAX: int := 0x7FFF_FFFF_FFFF_FFFF_FFFF_FFFF_FFFF_FFFF
  const U64_MAX: int := 0xFFFF_FFFF_FFFF_FFFF

  datatype Error =
    | Overflow              // a checked operation left its range
    | DivisionFailed        // division by zero
    | Panic                 // an unwrap of an absent value
    | InvalidInput          // the input validators refused the input
    | ExceedsCash           // v2: a buy above the shared cash
    | InsufficientEligible  // T+1: not enough shares from earlier sessions
    | Unsupported           // side and position effect not enabled
    | CrossesPosition       // a trade against the existing position
    | NotFlat               // crypto open on a position
    | OneXCap               // crypto open above the 1x notional cap
    | Inconsistent          // a checkpoint that is not believed
    | BatchSizeZero
    | BadContext
    | Incomplete

  datatype Result<+T> = Ok(value: T) | Err(error: Error) {
    predicate IsFailure() { Err? }

    function PropagateFailure<U>(): Result<U>
      requires Err?
    {
      Err(error)
    }

    function Extract(): T
      requires Ok?
    {
      value
    }
  }

  /** An error reported as an inconsistent checkpoint, whatever it was. */
  function OrInconsistent<T>(r: Result<T>): Result<T> {
    if r.Ok? then r else Err(Inconsistent)
  }

  datatype Option<+T> = None | Some(value: T)

  predicate InI128(x: int) { I128_MIN <= x <= I128_MAX }

  function Exact(x: int): Result<int> {
    if InI128(x) then Ok(x) else Err(Overflow)
  }

  function CheckedAdd(a: int, b: int): Result<int> { Exact(a + b) }

  function CheckedSub(a: int, b: int): Result<int> { Exact(a - b) }

  function CheckedMul(a: int, b: int): Result<int> { Exact(a * b) }

  /** Rust's integer division: toward zero. */
  function TruncDiv(a: int, b: int): int
    requires b != 0
  {
    if a >= 0 then a / b else -((-a) / b)
  }

  function CheckedDiv(a: int, b: int): Result<int> {
    if b == 0 then Err(DivisionFailed) else Exact(TruncDiv(a, b))
  }

  function Max(a: int, b: int): int { if a >= b then a else b }

  function Min(a: int, b: int): int { if a <= b then a else b }

  /** A proportional charge, rounded up: zero stays zero. */
  function RateCharge(notional: int, rate: int, scale: int): Result<int> {
    var numerator :- CheckedMul(notional, rate);
    if numerator == 0 then Ok(0)
    else
      var rounded :- CheckedAdd(numerator, scale - 1);
      CheckedDiv(rounded, scale)
  }

  function SignedRateCharge(notional: int, rate: int, scale: int): Result<int> {
    var magnitude :- Exact(if rate < 0 then -rate else rate);
    var charge :- RateCharge(notional, magnitude, scale);
    if rate < 0 then CheckedSub(0, charge) else Ok(charge)
  }

  /** The least integer whose scale-multiple covers n. */
  function CeilDiv(n: nat, scale: int): nat
    requires scale > 0
  {
    (n + scale - 1) / scale
  }

  lemma {:induction false} DivBounds(a: int, b: int)
    requires b > 0
    ensures b * (a / b) <= a < b * (a / b) + b
  {
  }

  lemma {:induction false} CeilDivLeast(n: nat, scale: int)
    requires scale > 0
    ensures CeilDiv(n, scale) * scale >= n
    ensures forall f: int :: f * scale >= n ==> f >= CeilDiv(n, scale)
  {
    DivBounds(n + scale - 1, scale);
    forall f: int | f * scale >= n
      ensures f >= CeilDiv(n, scale)
    {
      if f < CeilDiv(n, scale) {
        MulMonotone(f, CeilDiv(n, scale) - 1, scale);
      }
    }
  }

  lemma {:induction false} MulMonotone(a: int, b: int, c: int)
    requires a <= b && c >= 0
    ensures a * c <= b * c
  {
  }

  lemma {:induction false} MulNonNegative(a: int, b: int)
    requires a >= 0 && b >= 0
    ensures a * b >= 0
  {
  }

  /** Against non-negative money the rate charge is exactly the ceiling, and a
      rate not above its scale never charges more than the notional. */
  lemma {:induction false} RateChargeIsCeiling(notional: int, rate: int, scale: int)
    requires notional >= 0 && 0 <= rate && scale > 0
    ensures 0 <= notional * rate
    ensures RateCharge(notional, rate, scale).Ok? ==>
              RateCharge(notional, rate, scale).value == CeilDiv(notional * rate, scale)
    ensures rate <= scale ==> CeilDiv(notional * rate, scale) <= notional
  {
    MulNonNegative(notional, rate);
    if notional * rate == 0 {
      DivBounds(scale - 1, scale);
      CeilDivLeast(0, scale);
    }
    if rate <= scale {
      MulMonotone(rate, scale, notional);
      CeilDivLeast(notional * rate, scale);
    }
  }

  /** The ceiling of a multiple is at most the multiple of the ceiling. */
  lemma {:induction false} CeilDivSubadditive(n: nat, k: nat, scale: int)
    requires scale > 0
    ensures 0 <= k * n && CeilDiv(k * n, scale) <= k * CeilDiv(n, scale)
  {
    CeilDivLeast(n, scale);
    MulNonNegative(k, n);
    MulMonotone(n, CeilDiv(n, scale) * scale, k);
    assert k * (CeilDiv(n, scale) * scale) == (k * CeilDiv(n, scale)) * scale;
    CeilDivLeast(k * n, scale);
  }

  /** Truncating division of a non-positive value by a positive one. */
  lemma {:induction false} TruncDivOfNegative(a: int, b: int)
    requires a <= 0 < b
    ensures TruncDiv(a, b) <= 0
    ensures TruncDiv(a, b) * b >= a
  {
    DivBounds(-a, b);
    if a < 0 {
      assert TruncDiv(a, b) == -((-a) / b);
      assert -((-a) / b) * b == -(b * ((-a) / b));
    }
  }

  /** It is the greatest-magnitude rate not beyond the quotient. */
  lemma {:induction false} TruncDivLowerBound(a: int, b: int, lo: int)
    requires a <= 0 < b
    requires lo * b <= a
    ensures lo <= TruncDiv(a, b)
  {
    DivBounds(-a, b);
    var q := (-a) / b;
    if a < 0 && lo > -q {
      MulMonotone(1 - q, lo, b);
    }
  }

  lemma {:induction false} NegativeProduct(notional: int, rate: int, scale: int)
    requires notional <= 0 && 0 <= rate <= scale
    ensures notional * scale <= notional * rate <= 0
  {
    MulNonNegative(-notional, rate);
    MulMonotone(rate, scale, -notional);
    assert notional * rate == -((-notional) * rate) && (-notional) * scale == -(notional * scale);
  }

  lemma {:induction false} RebateBounds(notional: int, numerator: int, scale: int)
    requires scale > 0 && notional <= 0 && notional * scale <= numerator < 0
    ensures notional <= TruncDiv(numerator + (scale - 1), scale) <= 0
  {
    var rounded := numerator + (scale - 1);
    if rounded >= 0 {
      DivBounds(rounded, scale);
      SmallQuotient(rounded, scale);
    } else {
      TruncDivOfNegative(rounded, scale);
      TruncDivLowerBound(rounded, scale, notional);
    }
  }

  /** Against a negative amount the charge is a rebate of at most that amount. */
  lemma {:induction false} RateChargeOfNegative(notional: int, rate: int, scale: int)
    requires notional <= 0 && 0 <= rate <= scale && scale > 0
    requires RateCharge(notional, rate, scale).Ok?
    ensures notional <= RateCharge(notional, rate, scale).value <= 0
  {
    var numerator := notional * rate;
    NegativeProduct(notional, rate, scale);
    if numerator != 0 { RebateBounds(notional, numerator, scale); }
  }

  lemma {:induction false} SmallQuotient(a: int, b: int)
    requires 0 <= a < b
    ensures a / b == 0
  {
  }
}
