# Tax and depreciation calculation engine, in Dafny

This project models the calculation engine of `tax_and_depreciation_visual.py`,
a script that computes corporate income tax under two fiscal regimes and asset
depreciation under two accounting methods.

- **Tax** (`tax.dfy`, module `Tax`). `tarif_normal` is the standard tax
  `profit * rate`. `tax_holiday` charges nothing inside the holiday window
  `[holiday_start, holiday_end]`, which includes both bounds (the predicate
  `Tax.InHolidayWindow`, the chained comparison of line 18), and the standard
  tax outside it. The scenario string `"normal"` always pays the standard tax.
  Every other scenario string goes through the holiday rule.
- **Depreciation** (`depreciation.dfy`, module `Depreciation`).
  `penyusutan_garis_lurus` is `value / life`. `penyusutan_saldo_menurun` uses
  the rate `2 * (1 / life)` and the book value `value * (1 - rate)^(period - 1)`,
  and charges `book * rate`, clamped below at zero.
- **Tax-record loop** (`tax_ledger.dfy`, module `TaxLedger`). For each
  transaction the loop computes the taxable profit
  `revenue - operating expense - depreciation` and looks up the policy rows
  for its year. When there is no row it skips the transaction (`continue`).
  Otherwise it takes the first row's rate and window and appends a record
  `(year, scenario, tax)`. `ComputeTaxRecords` is a `while` loop proved equal
  to the specification function `TaxRecords`. The lemmas about `TaxRecords`
  cover input order, skipping and completeness.
- **Depreciation-record loop** (`depreciation_ledger.dfy`, module
  `DepreciationLedger`). For each asset and each year in `[2023, 2024]` the
  loop appends a record. The amount is straight-line when the method is
  `"garis_lurus"`. Any other method gets declining balance at period
  `year - 2022`. `ComputeDepreciationRecords` is a nested `while` loop whose
  postcondition gives every record by position.

Amounts, rates and values are Dafny `real`, which is exact rational
arithmetic. Years, useful lives and period indices are `int`. Scenario and
method are strings, because the code tests only for `"normal"` and
`"garis_lurus"` and sends every other string down the other branch.

The useful life must be non-zero. The code divides by it, and a zero life
raises a division error that nothing catches. The functions therefore require
`life != 0`. The declining-balance formula is modelled for period indices of
at least 1, and the driver only uses 1 and 2.

## Model

| member | source | states |
|---|---|---|
| `Tax.StandardTax` | tax_and_depreciation_visual.py:11-13 | the standard tax on a non-negative profit at a rate in [0, 1] lies between 0 and the profit; a loss gives a non-positive tax; a zero rate or zero profit gives zero tax |
| `Tax.HolidayTax` | tax_and_depreciation_visual.py:16-20 | zero whenever `start <= year <= end` (both bounds inclusive); exactly the standard tax otherwise |
| `Tax.ScenarioTax` | tax_and_depreciation_visual.py:78 | scenario "normal" pays the standard tax even inside the window; any other scenario pays zero inside the window; outside the window every scenario pays the standard tax |
| `Tax.HolidayTaxSaving` | tax_and_depreciation_visual.py:16-20 | for non-negative profit and rate, 0 <= holiday tax <= standard tax, and the saving is the whole standard tax inside the window and nothing outside |
| `Tax.HolidayTaxZeroIff` | tax_and_depreciation_visual.py:16-20 | holiday tax is zero if and only if the year is in the window or the profit or the rate is zero |
| `Tax.ScenarioTaxAgree` | tax_and_depreciation_visual.py:78 | two scenarios pay the same tax if and only if the year is outside the window, the standard tax is zero, or both scenarios take the same branch |
| `Depreciation.StraightLine` | tax_and_depreciation_visual.py:23-25 | the straight-line charge times the life gives back the value; it takes no period, so it is the same in every period |
| `Depreciation.DecliningRate` | tax_and_depreciation_visual.py:30-31 | the declining rate times the life is 2, i.e. twice the straight-line rate |
| `Depreciation.DecliningBalance` | tax_and_depreciation_visual.py:28-34 | the charge is never negative; it equals `book * rate` whenever that is positive and is 0 whenever `book * rate <= 0` |
| `Depreciation.RateBounds` | tax_and_depreciation_visual.py:30-32 | for a life of at least 2 the rate lies in (0, 1] and `1 - rate` in [0, 1), strictly positive for a life above 2 |
| `Depreciation.BookValueNext` | tax_and_depreciation_visual.py:32 | the book value of period n+1 is that of period n times `1 - rate` |
| `Depreciation.Pow` | tax_and_depreciation_visual.py:32 | the `**` with a natural exponent: a non-negative base gives a non-negative power, a positive base a positive one |
| `Depreciation.BookValue` | tax_and_depreciation_visual.py:32 | the book value is the value itself in period 1, and with a non-negative value and a life of at least 2 it is never negative in any period |
| `Depreciation.DecliningBalanceUnclamped` | tax_and_depreciation_visual.py:33-34 | with a non-negative value and a life of at least 2 the clamp never changes the charge |
| `Depreciation.ChargeStep` | tax_and_depreciation_visual.py:32-34 | for life >= 2 and value >= 0, with `book` the book value of period n, period n charges `book * rate` and period n+1 charges `book * (1 - rate) * rate` |
| `Depreciation.DecliningBalanceFirstPeriod` | tax_and_depreciation_visual.py:30-34 | period 1 charges `value * 2 / life` for a non-negative value and a positive life |
| `Depreciation.DecliningBalanceNonIncreasing` | tax_and_depreciation_visual.py:28-34 | for life >= 2 and value >= 0 the charge of period n+1 is at most that of period n |
| `Depreciation.DecliningBalanceDecreasing` | tax_and_depreciation_visual.py:28-34 | for life > 2 and value > 0 the charge of period n+1 is strictly below that of period n |
| `Depreciation.BookValueClosedForm` | tax_and_depreciation_visual.py:32-33 | the closed-form book value equals the book value obtained by subtracting each period's charge from the previous book value (life >= 2, value >= 0) |
| `Depreciation.ClosedFormStep` | tax_and_depreciation_visual.py:32-34 | for life >= 2 and value >= 0, the book value of period n less period n's charge is the book value of period n+1 |
| `Depreciation.ChargedPlusBookIsValue` | tax_and_depreciation_visual.py:28-34 | the charges of periods 1..n plus the remaining book value add up to the value, so the total charged never exceeds the value (life >= 2, value >= 0) |
| `Depreciation.ShortLifeOscillates` | tax_and_depreciation_visual.py:30-34 | with a life of 1 the charges of periods 1, 2 and 3 are 2·value, 0 and 2·value, and the first charge alone exceeds the value |
| `TaxLedger.TaxableProfit` | tax_and_depreciation_visual.py:67 | profit plus operating expense plus depreciation gives back the revenue |
| `TaxLedger.FindPolicy` | tax_and_depreciation_visual.py:70-72 | no row is found if and only if no policy row has the transaction's year; a found row is in the table and has that year |
| `TaxLedger.FindPolicyFirst` | tax_and_depreciation_visual.py:73-75 | the row found is the first row of the table for that year |
| `TaxLedger.RecordFor` | tax_and_depreciation_visual.py:69-79 | a transaction yields no record exactly when its year has no policy row; a record carries the transaction's year and scenario |
| `TaxLedger.TaxRecords` | tax_and_depreciation_visual.py:58-79 | the loop never produces more records than transactions |
| `TaxLedger.ComputeTaxRecords` | tax_and_depreciation_visual.py:58-79 | the loop with its `continue` produces exactly `TaxRecords` of the transactions |
| `TaxLedger.TaxRecordsAppend` | tax_and_depreciation_visual.py:58-79 | the records of a concatenation are the records of the first part followed by those of the second, so input order is kept |
| `TaxLedger.TaxRecordsSingle` | tax_and_depreciation_visual.py:70-79 | one transaction yields its own record, or nothing when it has no policy row |
| `TaxLedger.TaxRecordsSkipsMissingPolicy` | tax_and_depreciation_visual.py:70-72 | a transaction whose year has no policy row is dropped and the records around it are unchanged |
| `TaxLedger.TaxRecordsCount` | tax_and_depreciation_visual.py:58-79 | when every transaction year has a policy row there is exactly one record per transaction |
| `TaxLedger.TaxRecordsComplete` | tax_and_depreciation_visual.py:59-79 | when every year is covered, record k has transaction k's year and scenario and the tax of its scenario under the first matching policy row |
| `TaxLedger.SampleTaxRecords` | tax_and_depreciation_visual.py:37-46 | on the sample tables the records are 55,000,000 and 72,600,000 for the "normal" rows and 0 for the "tax_holiday" rows |
| `DepreciationLedger.Charge` | tax_and_depreciation_visual.py:91-95 | a "garis_lurus" charge times the life gives the value; any other method's charge is non-negative |
| `DepreciationLedger.RecordFor` | tax_and_depreciation_visual.py:96 | a record carries the asset's id and category and the year it was made for |
| `DepreciationLedger.ComputeDepreciationRecords` | tax_and_depreciation_visual.py:82-96 | exactly two records per asset, in asset order: position 2k is asset k in 2023, position 2k+1 is asset k in 2024 |
| `DepreciationLedger.StraightLineConstant` | tax_and_depreciation_visual.py:91-93 | a "garis_lurus" asset is charged the same amount in any two years |
| `DepreciationLedger.DecliningBalanceYears` | tax_and_depreciation_visual.py:94-95 | for any other method, 2023 (period 1) charges `value * 2 / life`, 2024 (period 2) charges no more than 2023 when life >= 2, and strictly less when life > 2 and value > 0 |
| `DepreciationLedger.SampleAssets` | tax_and_depreciation_visual.py:48-50 | the sample straight-line asset is charged 20,000,000 in both years; the sample declining-balance asset is charged 75,000,000 and then 37,500,000 |

## Left out

- `load_data` and the embedded CSV strings (lines 6-8 and 37-55): the three tables are Dafny sequences of records. CSV parsing is not modelled. The sample rows appear only in `SampleTaxRecords` and `SampleAssets`.
- Both matplotlib charts (lines 98-123): these are rendering only.
- Floating point: every amount is an exact `real`. The model states the exact formulas, not IEEE binary rounding of `float(...)`, `/` and `**`.
- The `int(...)` coercions of lines 60, 74-75 and 87: years and lives are `int` from the start.
- A useful life of zero: the code raises a division error. The model requires `life != 0` instead of modelling the crash.
- Depreciation.DecliningBalance: period indices below 1 are not modelled, because the requires asks for `period >= 1`. Python evaluates negative powers there for most lives, and raises ZeroDivisionError when the life is 2, because the base `1 - rate` is then 0.0. The driver only uses periods 1 and 2.
- Depreciation.DecliningBalanceNonIncreasing: stated only for life >= 2. For a life of 1 the charges alternate, as `Depreciation.ShortLifeOscillates` shows. For a negative life the rate is negative, so with a non-negative value every charge is clamped to 0 and the charges stay constant; they can grow only when a negative life comes with a negative value. The code accepts all these lives; it does not reject them.
- Aliasing and in-place mutation of the Python lists: both loops build a fresh Dafny sequence, which is all the script does with them.
