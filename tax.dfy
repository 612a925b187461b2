/** Corporate income tax under the standard rate and under a tax holiday
    (`tarif_normal`, `tax_holiday` and the scenario choice of the tax loop).
    Amounts and rates are exact reals; years are integers. */
module Tax {

  /** The scenario name that always pays the standard rate. Every other
      scenario string goes through the holiday rule. */
  const NormalScenario: string := "normal"

  /** Tax at the standard rate (`tarif_normal`): a fraction `rate` of the profit.
      For a non-negative profit and a rate in [0, 1] the tax lies between zero
      and the profit itself; a loss at a positive rate gives a non-positive tax. */
  function StandardTax(profit: real, rate: real): (r: real)
    ensures 0.0 <= profit && 0.0 <= rate <= 1.0 ==> 0.0 <= r <= profit
    ensures profit <= 0.0 && 0.0 <= rate ==> r <= 0.0
    ensures rate == 0.0 || profit == 0.0 ==> r == 0.0
  {
    profit * rate
  }

  /** The holiday window `[start, end]`, both bounds inclusive. */
  predicate InHolidayWindow(year: int, start: int, end: int)
  {
    start <= year <= end
  }

  /** Tax under a tax holiday (`tax_holiday`): nothing is due inside the
      window, the standard tax is due outside it. */
  function HolidayTax(profit: real, year: int, rate: real, start: int, end: int): (r: real)
    ensures InHolidayWindow(year, start, end) ==> r == 0.0
    ensures !InHolidayWindow(year, start, end) ==> r == StandardTax(profit, rate)
  {
    if start <= year <= end then 0.0 else StandardTax(profit, rate)
  }

  /** The tax a transaction of the given scenario pays under one policy row:
      the "normal" scenario pays the standard tax whatever the window says,
      any other scenario goes through the holiday rule. */
  function ScenarioTax(profit: real, year: int, scenario: string, rate: real, start: int, end: int): (r: real)
    ensures scenario == NormalScenario ==> r == StandardTax(profit, rate)
    ensures scenario != NormalScenario && InHolidayWindow(year, start, end) ==> r == 0.0
    ensures !InHolidayWindow(year, start, end) ==> r == StandardTax(profit, rate)
  {
    if scenario == NormalScenario then StandardTax(profit, rate)
    else HolidayTax(profit, year, rate, start, end)
  }

  /** On a non-negative profit at a non-negative rate the holiday never costs
      more than the standard rate, and it saves exactly the standard tax inside
      the window and nothing outside it. */
  lemma HolidayTaxSaving(profit: real, year: int, rate: real, start: int, end: int)
    requires 0.0 <= profit && 0.0 <= rate
    ensures 0.0 <= HolidayTax(profit, year, rate, start, end) <= StandardTax(profit, rate)
    ensures StandardTax(profit, rate) - HolidayTax(profit, year, rate, start, end)
            == (if InHolidayWindow(year, start, end) then StandardTax(profit, rate) else 0.0)
  {
  }

  /** Holiday tax is zero exactly when the year is inside the window or the
      standard tax itself is zero. */
  lemma HolidayTaxZeroIff(profit: real, year: int, rate: real, start: int, end: int)
    ensures HolidayTax(profit, year, rate, start, end) == 0.0
            <==> InHolidayWindow(year, start, end) || profit == 0.0 || rate == 0.0
  {
    if !InHolidayWindow(year, start, end) && profit != 0.0 && rate != 0.0 {
      assert profit * rate != 0.0;
    }
  }

  /** Two transactions that differ only in their scenario pay the same tax
      if and only if the year is outside the window, or the standard tax is
      zero, or both scenarios take the same branch. */
  lemma ScenarioTaxAgree(profit: real, year: int, s1: string, s2: string, rate: real, start: int, end: int)
    ensures ScenarioTax(profit, year, s1, rate, start, end) == ScenarioTax(profit, year, s2, rate, start, end)
            <==> !InHolidayWindow(year, start, end) || profit == 0.0 || rate == 0.0
                 || (s1 == NormalScenario) == (s2 == NormalScenario)
  {
    HolidayTaxZeroIff(profit, year, rate, start, end);
  }
}
