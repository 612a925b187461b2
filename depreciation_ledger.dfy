/** The depreciation-record loop: every asset gets one record for each
    reporting year 2023 and 2024, by the straight-line method when its
    method is "garis_lurus" and by declining balance otherwise. */
module DepreciationLedger {
  import opened Depreciation

  /** The method name that selects straight-line depreciation. Every other
      method string selects declining balance. */
  const StraightLineMethod: string := "garis_lurus"

  /** The reporting years, in the order the loop visits them. */
  const ReportYears: seq<int> := [2023, 2024]

  /** Period index of a reporting year: `year - BaseYear`, so 2023 is period 1. */
  const BaseYear: int := 2022

  /** One row of the asset table (`aset_id`, `kategori`, `nilai_perolehan`,
      `umur_ekonomis`, `metode`). */
  datatype Asset = Asset(id: int, category: string, value: real, life: int, scheme: string)

  /** One computed depreciation record (`aset_id`, `kategori`, `tahun`, `penyusutan`). */
  datatype DepreciationRecord = DepreciationRecord(assetId: int, category: string, year: int, amount: real)

  /** The charge for asset `a` in reporting year `year`: straight-line
      amounts add up to the value over the useful life, declining-balance
      amounts are never negative. */
  function Charge(a: Asset, year: int): (r: real)
    requires a.life != 0 && BaseYear < year
    ensures a.scheme == StraightLineMethod ==> r * (a.life as real) == a.value
    ensures a.scheme != StraightLineMethod ==> 0.0 <= r
  {
    if a.scheme == StraightLineMethod then StraightLine(a.value, a.life)
    else DecliningBalance(a.value, a.life, year - BaseYear)
  }

  /** The record asset `a` gets for `year`. */
  function RecordFor(a: Asset, year: int): (r: DepreciationRecord)
    requires a.life != 0 && BaseYear < year
    ensures r.assetId == a.id && r.category == a.category && r.year == year
  {
    DepreciationRecord(a.id, a.category, year, Charge(a, year))
  }

  /** The depreciation-record loop: two records per asset, in asset order,
      the 2023 record first. Every useful life must be non-zero, since both
      formulas divide by it. */
  method ComputeDepreciationRecords(assets: seq<Asset>) returns (records: seq<DepreciationRecord>)
    requires forall k :: 0 <= k < |assets| ==> assets[k].life != 0
    ensures |records| == 2 * |assets|
    ensures forall k :: 0 <= k < |assets| ==>
              records[2 * k] == RecordFor(assets[k], 2023) && records[2 * k + 1] == RecordFor(assets[k], 2024)
  {
    records := [];
    var i := 0;
    while i < |assets|
      invariant 0 <= i <= |assets|
      invariant |records| == 2 * i
      invariant forall k :: 0 <= k < i ==>
                  records[2 * k] == RecordFor(assets[k], 2023) && records[2 * k + 1] == RecordFor(assets[k], 2024)
    {
      var a := assets[i];
      var j := 0;
      while j < |ReportYears|
        invariant 0 <= j <= |ReportYears|
        invariant |records| == 2 * i + j
        invariant forall k :: 0 <= k < i ==>
                    records[2 * k] == RecordFor(assets[k], 2023) && records[2 * k + 1] == RecordFor(assets[k], 2024)
        invariant forall m :: 0 <= m < j ==> records[2 * i + m] == RecordFor(a, ReportYears[m])
      {
        var year := ReportYears[j];
        var dep;
        if a.scheme == StraightLineMethod {
          dep := StraightLine(a.value, a.life);
        } else {
          dep := DecliningBalance(a.value, a.life, year - BaseYear);
        }
        records := records + [DepreciationRecord(a.id, a.category, year, dep)];
        j := j + 1;
      }
      assert records[2 * i] == RecordFor(a, ReportYears[0]);
      assert records[2 * i + 1] == RecordFor(a, ReportYears[1]);
      i := i + 1;
    }
  }

  /** A straight-line asset is charged the same amount in every year. */
  lemma StraightLineConstant(a: Asset, y1: int, y2: int)
    requires a.life != 0 && BaseYear < y1 && BaseYear < y2
    requires a.scheme == StraightLineMethod
    ensures Charge(a, y1) == Charge(a, y2)
  {
  }

  /** A declining-balance asset (any method other than "garis_lurus") is
      charged twice the straight-line amount in 2023, is never charged more
      in 2024 than in 2023 once its life is at least two, and is charged
      strictly less in 2024 when its life is above two and its value positive. */
  lemma {:induction false} DecliningBalanceYears(a: Asset)
    requires a.scheme != StraightLineMethod && 0.0 <= a.value && 2 <= a.life
    ensures Charge(a, 2023) == a.value * 2.0 / (a.life as real)
    ensures Charge(a, 2024) <= Charge(a, 2023)
    ensures 0.0 < a.value && 2 < a.life ==> Charge(a, 2024) < Charge(a, 2023)
  {
    DecliningBalanceFirstPeriod(a.value, a.life);
    DecliningBalanceNonIncreasing(a.value, a.life, 1);
    if 0.0 < a.value && 2 < a.life {
      DecliningBalanceDecreasing(a.value, a.life, 1);
    }
  }

  /** The sample assets: a sewing machine of 100,000,000 over five years by
      straight line is charged 20,000,000 in both years; a vehicle of
      150,000,000 over four years by declining balance is charged 75,000,000
      in 2023 and 37,500,000 in 2024. */
  lemma SampleAssets()
    ensures Charge(Asset(1, "Mesin Jahit", 100000000.0, 5, "garis_lurus"), 2023) == 20000000.0
    ensures Charge(Asset(1, "Mesin Jahit", 100000000.0, 5, "garis_lurus"), 2024) == 20000000.0
    ensures Charge(Asset(2, "Kendaraan Operasional", 150000000.0, 4, "saldo_menurun"), 2023) == 75000000.0
    ensures Charge(Asset(2, "Kendaraan Operasional", 150000000.0, 4, "saldo_menurun"), 2024) == 37500000.0
  {
    var v := Asset(2, "Kendaraan Operasional", 150000000.0, 4, "saldo_menurun");
    assert DecliningRate(4) == 0.5;
    assert Pow(0.5, 1) == 0.5 * Pow(0.5, 0);
    assert BookValue(v.value, 4, 2) == 75000000.0;
  }
}
