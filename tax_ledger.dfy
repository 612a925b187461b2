/** The tax-record loop: for each transaction, its taxable profit, the first
    fiscal-policy row for its year, and the tax its scenario pays under that
    row. A transaction whose year has no policy row is skipped. */
module TaxLedger {
  import opened Tax

  datatype Option<T> = None | Some(value: T)

  /** One row of the transaction table (`tahun`, `pendapatan`,
      `beban_operasional`, `penyusutan`, `skenario`). */
  datatype Transaction = Transaction(
    year: int,
    revenue: real,
    operatingExpense: real,
    depreciation: real,
    scenario: string)

  /** One row of the fiscal-policy table (`tahun`, `tax_rate`,
      `tax_holiday_awal`, `tax_holiday_akhir`). */
  datatype Policy = Policy(year: int, taxRate: real, holidayStart: int, holidayEnd: int)

  /** One computed tax record (`tahun`, `skenario`, `pajak`). */
  datatype TaxRecord = TaxRecord(year: int, scenario: string, tax: real)

  /** Taxable profit: revenue less operating expense less depreciation. */
  function TaxableProfit(t: Transaction): (r: real)
    ensures r + t.operatingExpense + t.depreciation == t.revenue
  {
    t.revenue - t.operatingExpense - t.depreciation
  }

  /** Row `i` is the first row of `policies` for `year`. */
  predicate IsFirstMatch(policies: seq<Policy>, year: int, i: int)
  {
    0 <= i < |policies| && policies[i].year == year
    && forall j :: 0 <= j < i ==> policies[j].year != year
  }

  /** The policy row for `year`, if any: the first row in table order whose
      year matches. */
  function FindPolicy(policies: seq<Policy>, year: int): (r: Option<Policy>)
    ensures r.None? <==> forall i :: 0 <= i < |policies| ==> policies[i].year != year
    ensures r.Some? ==> r.value in policies && r.value.year == year
  {
    if |policies| == 0 then None
    else if policies[0].year == year then Some(policies[0])
    else FindPolicy(policies[1..], year)
  }

  /** The first matching row is the one the lookup returns. */
  lemma {:induction false} FindPolicyFirst(policies: seq<Policy>, year: int, i: int)
    requires IsFirstMatch(policies, year, i)
    ensures FindPolicy(policies, year) == Some(policies[i])
  {
    if i > 0 {
      assert policies[0].year != year;
      assert IsFirstMatch(policies[1..], year, i - 1) by {
        forall j | 0 <= j < i - 1 ensures policies[1..][j].year != year {
          assert policies[1..][j] == policies[j + 1];
        }
      }
      FindPolicyFirst(policies[1..], year, i - 1);
    }
  }

  /** The record one transaction contributes, or None when no policy row
      covers its year. */
  function RecordFor(t: Transaction, policies: seq<Policy>): (r: Option<TaxRecord>)
    ensures r.None? <==> FindPolicy(policies, t.year).None?
    ensures r.Some? ==> r.value.year == t.year && r.value.scenario == t.scenario
  {
    match FindPolicy(policies, t.year)
    case None => None
    case Some(p) =>
      Some(TaxRecord(t.year, t.scenario,
        ScenarioTax(TaxableProfit(t), t.year, t.scenario, p.taxRate, p.holidayStart, p.holidayEnd)))
  }

  /** The records an optional record contributes to the output. */
  function Emitted(r: Option<TaxRecord>): (s: seq<TaxRecord>)
    ensures |s| <= 1
    ensures r.None? <==> s == []
  {
    match r
    case None => []
    case Some(x) => [x]
  }

  /** The records the loop produces for `txs`, in transaction order: never
      more records than transactions. */
  function TaxRecords(txs: seq<Transaction>, policies: seq<Policy>): (s: seq<TaxRecord>)
    ensures |s| <= |txs|
  {
    if txs == [] then []
    else TaxRecords(txs[..|txs| - 1], policies) + Emitted(RecordFor(txs[|txs| - 1], policies))
  }

  /** The tax-record loop. */
  method ComputeTaxRecords(txs: seq<Transaction>, policies: seq<Policy>) returns (records: seq<TaxRecord>)
    ensures records == TaxRecords(txs, policies)
  {
    records := [];
    var i := 0;
    while i < |txs|
      invariant 0 <= i <= |txs|
      invariant records == TaxRecords(txs[..i], policies)
    {
      assert txs[..i + 1][..i] == txs[..i];
      var t := txs[i];
      var profit := TaxableProfit(t);
      var policy := FindPolicy(policies, t.year);
      if policy.None? {
        i := i + 1;
        continue;
      }
      var p := policy.value;
      var tax := if t.scenario == NormalScenario then StandardTax(profit, p.taxRate)
                 else HolidayTax(profit, t.year, p.taxRate, p.holidayStart, p.holidayEnd);
      records := records + [TaxRecord(t.year, t.scenario, tax)];
      i := i + 1;
    }
    assert txs[..i] == txs;
  }

  /** Processing two batches one after the other gives the records of the
      first followed by those of the second: the output keeps input order. */
  lemma {:induction false} TaxRecordsAppend(a: seq<Transaction>, b: seq<Transaction>, policies: seq<Policy>)
    ensures TaxRecords(a + b, policies) == TaxRecords(a, policies) + TaxRecords(b, policies)
    decreases |b|
  {
    if b == [] {
      assert a + b == a;
    } else {
      var last := b[|b| - 1];
      var front := b[..|b| - 1];
      assert (a + b)[..|a + b| - 1] == a + front;
      assert (a + b)[|a + b| - 1] == last;
      TaxRecordsAppend(a, front, policies);
    }
  }

  /** A single transaction yields its record, or nothing when its year has no
      policy row. */
  lemma {:induction false} TaxRecordsSingle(t: Transaction, policies: seq<Policy>)
    ensures TaxRecords([t], policies) == Emitted(RecordFor(t, policies))
  {
    assert [t][..0] == [];
  }

  /** A transaction whose year has no policy row is dropped without
      disturbing the records around it. */
  lemma {:induction false} TaxRecordsSkipsMissingPolicy(pre: seq<Transaction>, t: Transaction, post: seq<Transaction>, policies: seq<Policy>)
    requires forall i :: 0 <= i < |policies| ==> policies[i].year != t.year
    ensures TaxRecords(pre + [t] + post, policies) == TaxRecords(pre + post, policies)
  {
    TaxRecordsAppend(pre + [t], post, policies);
    TaxRecordsAppend(pre, [t], policies);
    TaxRecordsAppend(pre, post, policies);
    TaxRecordsSingle(t, policies);
  }

  /** When every transaction year has a policy row, there is exactly one
      record per transaction, at the same position, with the transaction's
      year and scenario and the tax its scenario pays under the first
      matching row. */
  lemma {:induction false} TaxRecordsComplete(txs: seq<Transaction>, policies: seq<Policy>, k: int, i: int)
    requires forall n :: 0 <= n < |txs| ==> exists m :: 0 <= m < |policies| && policies[m].year == txs[n].year
    requires 0 <= k < |txs| && IsFirstMatch(policies, txs[k].year, i)
    ensures |TaxRecords(txs, policies)| == |txs|
    ensures TaxRecords(txs, policies)[k]
            == TaxRecord(txs[k].year, txs[k].scenario,
                 ScenarioTax(TaxableProfit(txs[k]), txs[k].year, txs[k].scenario,
                   policies[i].taxRate, policies[i].holidayStart, policies[i].holidayEnd))
  {
    TaxRecordsCount(txs, policies);
    var front := txs[..k];
    var back := txs[k + 1..];
    assert txs == front + [txs[k]] + back;
    TaxRecordsAppend(front + [txs[k]], back, policies);
    TaxRecordsAppend(front, [txs[k]], policies);
    TaxRecordsSingle(txs[k], policies);
    TaxRecordsCount(front, policies);
    FindPolicyFirst(policies, txs[k].year, i);
  }

  /** When every transaction year has a policy row, nothing is dropped. */
  lemma {:induction false} TaxRecordsCount(txs: seq<Transaction>, policies: seq<Policy>)
    requires forall n :: 0 <= n < |txs| ==> exists m :: 0 <= m < |policies| && policies[m].year == txs[n].year
    ensures |TaxRecords(txs, policies)| == |txs|
    decreases |txs|
  {
    if txs != [] {
      var last := txs[|txs| - 1];
      var m :| 0 <= m < |policies| && policies[m].year == last.year;
      TaxRecordsCount(txs[..|txs| - 1], policies);
    }
  }

  /** The sample tables: every sample year has a policy row with rate 0.22
      and the holiday window 2023-2027, so the "normal" transactions pay 22%
      of their taxable profit (250,000,000 and 330,000,000) and the
      "tax_holiday" transactions pay nothing. */
  lemma SampleTaxRecords()
    ensures TaxRecords(
              [Transaction(2023, 500000000.0, 200000000.0, 50000000.0, "normal"),
               Transaction(2023, 600000000.0, 250000000.0, 60000000.0, "tax_holiday"),
               Transaction(2024, 700000000.0, 300000000.0, 70000000.0, "normal"),
               Transaction(2024, 800000000.0, 350000000.0, 80000000.0, "tax_holiday")],
              [Policy(2023, 0.22, 2023, 2027), Policy(2024, 0.22, 2023, 2027), Policy(2025, 0.22, 2023, 2027)])
            == [TaxRecord(2023, "normal", 55000000.0), TaxRecord(2023, "tax_holiday", 0.0),
                TaxRecord(2024, "normal", 72600000.0), TaxRecord(2024, "tax_holiday", 0.0)]
  {
    var txs := [Transaction(2023, 500000000.0, 200000000.0, 50000000.0, "normal"),
                Transaction(2023, 600000000.0, 250000000.0, 60000000.0, "tax_holiday"),
                Transaction(2024, 700000000.0, 300000000.0, 70000000.0, "normal"),
                Transaction(2024, 800000000.0, 350000000.0, 80000000.0, "tax_holiday")];
    var policies := [Policy(2023, 0.22, 2023, 2027), Policy(2024, 0.22, 2023, 2027), Policy(2025, 0.22, 2023, 2027)];
    assert FindPolicy(policies, 2023) == Some(policies[0]);
    assert FindPolicy(policies, 2024) == Some(policies[1]) by {
      assert FindPolicy(policies[1..], 2024) == Some(policies[1]);
    }
    assert "tax_holiday" != NormalScenario by { assert "tax_holiday"[0] != NormalScenario[0]; }
    var r0 := TaxRecord(2023, "normal", 55000000.0);
    var r1 := TaxRecord(2023, "tax_holiday", 0.0);
    var r2 := TaxRecord(2024, "normal", 72600000.0);
    var r3 := TaxRecord(2024, "tax_holiday", 0.0);
    assert RecordFor(txs[0], policies) == Some(r0);
    assert RecordFor(txs[1], policies) == Some(r1);
    assert RecordFor(txs[2], policies) == Some(r2);
    assert RecordFor(txs[3], policies) == Some(r3);
    assert txs[..1][..0] == [];
    assert TaxRecords(txs[..1], policies) == [r0];
    assert txs[..2][..1] == txs[..1];
    assert TaxRecords(txs[..2], policies) == [r0, r1];
    assert txs[..3][..2] == txs[..2];
    assert TaxRecords(txs[..3], policies) == [r0, r1, r2];
    assert txs[..3] == txs[..|txs| - 1];
  }
}
