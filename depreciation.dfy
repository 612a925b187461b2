/** Asset depreciation by the straight-line method (`penyusutan_garis_lurus`)
    and by the double declining-balance method (`penyusutan_saldo_menurun`).
    Values are exact reals, the useful life and the period index integers. */
module Depreciation {

  /** `b` raised to the natural power `n`: a non-negative base gives a
      non-negative power and a positive base a positive one. */
  function Pow(b: real, n: nat): (r: real)
    ensures 0.0 <= b ==> 0.0 <= r
    ensures 0.0 < b ==> 0.0 < r
  {
    if n == 0 then 1.0 else b * Pow(b, n - 1)
  }

  /** Straight-line depreciation: the value spread evenly over the useful
      life, so that `life` equal charges add up to the value. It takes no
      period, so it is the same in every period. */
  function StraightLine(value: real, life: int): (r: real)
    requires life != 0
    ensures r * (life as real) == value
  {
    value / (life as real)
  }

  /** The declining-balance rate, twice the straight-line rate `1 / life`. */
  function DecliningRate(life: int): (r: real)
    requires life != 0
    ensures r * (life as real) == 2.0
  {
    2.0 * (1.0 / (life as real))
  }

  /** Book value at the start of period `period` (1-based): the value
      multiplied by `1 - rate` once for every earlier period. It is the value
      itself in period 1, and with a non-negative value and a life of at least
      two periods it never goes negative. */
  function BookValue(value: real, life: int, period: int): (r: real)
    requires life != 0 && 1 <= period
    ensures period == 1 ==> r == value
    ensures 0.0 <= value && 2 <= life ==> 0.0 <= r
  {
    value * Pow(1.0 - DecliningRate(life), period - 1)
  }

  /** Declining-balance depreciation in period `period`: the rate applied
      to the book value, clamped below at zero: the unclamped charge whenever
      that is positive, and zero otherwise. */
  function DecliningBalance(value: real, life: int, period: int): (r: real)
    requires life != 0 && 1 <= period
    ensures 0.0 <= r
    ensures BookValue(value, life, period) * DecliningRate(life) <= 0.0 ==> r == 0.0
    ensures 0.0 < BookValue(value, life, period) * DecliningRate(life)
            ==> r == BookValue(value, life, period) * DecliningRate(life)
  {
    var depreciation := BookValue(value, life, period) * DecliningRate(life);
    if depreciation > 0.0 then depreciation else 0.0
  }

  /** For a life of at least two periods the factor `1 - rate` lies in [0, 1),
      and strictly above 0 for a life above two. */
  lemma RateBounds(life: int)
    requires 2 <= life
    ensures 0.0 < DecliningRate(life) <= 1.0
    ensures 0.0 <= 1.0 - DecliningRate(life) < 1.0
    ensures 2 < life ==> 0.0 < 1.0 - DecliningRate(life)
  {
  }

  /** Moving one period on multiplies the book value by `1 - rate`. */
  lemma BookValueNext(value: real, life: int, period: int)
    requires life != 0 && 1 <= period
    ensures BookValue(value, life, period + 1) == BookValue(value, life, period) * (1.0 - DecliningRate(life))
  {
  }

  /** Under the same conditions the clamp at zero never changes the charge. */
  lemma DecliningBalanceUnclamped(value: real, life: int, period: int)
    requires 0.0 <= value && 2 <= life && 1 <= period
    ensures DecliningBalance(value, life, period) == BookValue(value, life, period) * DecliningRate(life)
  {
    RateBounds(life);
  }

  /** The first period charges twice the straight-line amount, `value * 2 / life`. */
  lemma DecliningBalanceFirstPeriod(value: real, life: int)
    requires 0.0 <= value && 0 < life
    ensures DecliningBalance(value, life, 1) == value * 2.0 / (life as real)
  {
  }

  /** For a non-negative value and a life of at least two periods the charge
      never grows from one period to the next. */
  lemma DecliningBalanceNonIncreasing(value: real, life: int, period: int)
    requires 0.0 <= value && 2 <= life && 1 <= period
    ensures DecliningBalance(value, life, period + 1) <= DecliningBalance(value, life, period)
  {
    ChargeStep(value, life, period);
    RateBounds(life);
    NextChargeBound(BookValue(value, life, period), DecliningRate(life));
  }

  /** For a positive value and a life above two periods the charge strictly
      falls from one period to the next. */
  lemma DecliningBalanceDecreasing(value: real, life: int, period: int)
    requires 0.0 < value && 2 < life && 1 <= period
    ensures DecliningBalance(value, life, period + 1) < DecliningBalance(value, life, period)
  {
    ChargeStep(value, life, period);
    RateBounds(life);
    NextChargeBound(BookValue(value, life, period), DecliningRate(life));
  }

  /** The charges of two consecutive periods in terms of the earlier book
      value, when the clamp does not bite. */
  lemma ChargeStep(value: real, life: int, period: int)
    requires 0.0 <= value && 2 <= life && 1 <= period
    ensures DecliningBalance(value, life, period) == BookValue(value, life, period) * DecliningRate(life)
    ensures DecliningBalance(value, life, period + 1)
            == (BookValue(value, life, period) * (1.0 - DecliningRate(life))) * DecliningRate(life)
  {
    DecliningBalanceUnclamped(value, life, period);
    DecliningBalanceUnclamped(value, life, period + 1);
    BookValueNext(value, life, period);
  }

  /** One period on, the charge on a non-negative book value at a rate in
      (0, 1] is no larger, and strictly smaller when the book value is
      positive and the rate below 1. */
  lemma NextChargeBound(book: real, rate: real)
    requires 0.0 <= book && 0.0 < rate <= 1.0
    ensures (book * (1.0 - rate)) * rate <= book * rate
    ensures 0.0 < book && rate < 1.0 ==> (book * (1.0 - rate)) * rate < book * rate
  {
  }

  /** Book value obtained step by step, the way declining balance is
      described: the value itself in period 1, then each period the book value
      of the previous period less that period's charge. */
  function BookValueByCharges(value: real, life: int, period: int): real
    requires life != 0 && 1 <= period
    decreases period
  {
    if period == 1 then value
    else BookValueByCharges(value, life, period - 1) - DecliningBalance(value, life, period - 1)
  }

  /** The closed form agrees with the step-by-step book value whenever the
      clamp does not bite (non-negative value, life of at least two). */
  lemma {:induction false} BookValueClosedForm(value: real, life: int, period: int)
    requires 0.0 <= value && 2 <= life && 1 <= period
    ensures BookValueByCharges(value, life, period) == BookValue(value, life, period)
    decreases period
  {
    if period > 1 {
      BookValueClosedForm(value, life, period - 1);
      ClosedFormStep(value, life, period - 1);
    }
  }

  /** One step of that induction: subtracting period n's charge from period
      n's closed-form book value gives period n+1's. */
  lemma ClosedFormStep(value: real, life: int, period: int)
    requires 0.0 <= value && 2 <= life && 1 <= period
    ensures BookValue(value, life, period) - DecliningBalance(value, life, period) == BookValue(value, life, period + 1)
  {
    DecliningBalanceUnclamped(value, life, period);
    BookValueNext(value, life, period);
  }

  /** Total declining-balance depreciation charged over periods 1 to `n`. */
  function TotalCharged(value: real, life: int, n: nat): real
    requires life != 0
  {
    if n == 0 then 0.0 else TotalCharged(value, life, n - 1) + DecliningBalance(value, life, n)
  }

  /** What has been charged over the first `n` periods plus the book value
      that remains always add up to the value: declining balance never
      depreciates an asset beyond its value. */
  lemma {:induction false} ChargedPlusBookIsValue(value: real, life: int, n: nat)
    requires 0.0 <= value && 2 <= life
    ensures TotalCharged(value, life, n) + BookValue(value, life, n + 1) == value
    ensures TotalCharged(value, life, n) <= value
  {
    if n == 0 {
      assert Pow(1.0 - DecliningRate(life), 0) == 1.0;
    } else {
      ChargedPlusBookIsValue(value, life, n - 1);
      BookValueNext(value, life, n);
      DecliningBalanceUnclamped(value, life, n);
      var book := BookValue(value, life, n);
      var rate := DecliningRate(life);
      assert book * (1.0 - rate) == book - book * rate;
    }
  }

  /** With a useful life of one period the factor `1 - rate` is -1: the
      first period charges twice the value, the second charge is clamped to
      zero, and the third charges twice the value again. This is why the
      monotonicity lemmas above ask for a life of at least two. */
  lemma ShortLifeOscillates(value: real)
    requires 0.0 < value
    ensures DecliningBalance(value, 1, 1) == 2.0 * value
    ensures DecliningBalance(value, 1, 2) == 0.0
    ensures DecliningBalance(value, 1, 3) == 2.0 * value
    ensures value < TotalCharged(value, 1, 1)
  {
    assert DecliningRate(1) == 2.0;
    assert Pow(-1.0, 1) == -1.0 by { assert Pow(-1.0, 0) == 1.0; }
    assert Pow(-1.0, 2) == 1.0;
    assert TotalCharged(value, 1, 0) == 0.0;
  }
}
