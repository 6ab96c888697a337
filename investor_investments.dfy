/**
 * app/dashboard/investor/investments/page.tsx: an investor's portfolio, with
 * each investment's performance since entry, the portfolio totals and the
 * overall performance.
 *
 * A valuation that is null in the database is 0 here: both are falsy and
 * both count as 0 in the arithmetic.
 */
module InvestorInvestments {
  import opened Common

  /** A row as the query returns it, with its company joined in. */
  datatype InvestmentRow = InvestmentRow(
    id: string,
    amount: real,
    percentage: real,
    date: string,
    instrument: string,
    status: string,
    initialValuation: real,
    companyId: string,
    companyName: string,
    industry: string,
    stage: string,
    currentValuation: real,
    documents: Option<seq<string>>)

  /** A row as the page shows it. */
  datatype Investment = Investment(
    id: string,
    companyId: string,
    companyName: string,
    industry: string,
    amount: real,
    percentage: real,
    instrument: string,
    status: string,
    valuation: real,
    currentValuation: real,
    performance: int,
    documents: nat)

  /**
   * The performance figure: the valuation's change since entry, in whole
   * percent, when both valuations are truthy; 0 otherwise, so there is never
   * a division by zero.
   */
  function Performance(initial: real, current: real): (p: int)
    ensures initial == 0.0 || current == 0.0 ==> p == 0
    ensures initial != 0.0 && current != 0.0 ==>
              p as real - 0.5 <= (current - initial) / initial * 100.0 < p as real + 0.5
  {
    if initial != 0.0 && current != 0.0 then Round((current - initial) / initial * 100.0) else 0
  }

  /** With positive valuations, the figure's sign follows the valuation's direction. */
  lemma PerformanceSign(initial: real, current: real)
    requires initial > 0.0 && current > 0.0
    ensures current >= initial ==> Performance(initial, current) >= 0
    ensures Performance(initial, current) > 0 ==> current > initial
    ensures Performance(initial, current) < 0 ==> current < initial
  {
    var x := (current - initial) / initial * 100.0;
    assert current >= initial ==> x >= 0.0;
    assert current <= initial ==> x <= 0.0;
  }

  /** The page's mapping of one query row. */
  function Format(r: InvestmentRow): (inv: Investment)
    ensures inv.performance == Performance(r.initialValuation, r.currentValuation)
    ensures inv.documents == LengthOr0(r.documents)
    ensures inv.valuation == r.initialValuation && inv.currentValuation == r.currentValuation
    ensures inv.amount == r.amount && inv.percentage == r.percentage && inv.industry == r.industry
  {
    Investment(r.id, r.companyId, r.companyName, r.industry, r.amount, r.percentage, r.instrument, r.status,
               r.initialValuation, r.currentValuation, Performance(r.initialValuation, r.currentValuation),
               LengthOr0(r.documents))
  }

  /** `investmentsData?.map(...) || []`: one shown row per query row, in order. */
  function FormatAll(data: Option<seq<InvestmentRow>>): (invs: seq<Investment>)
    ensures data.None? ==> invs == []
    ensures data.Some? ==> |invs| == |data.value|
    ensures data.Some? ==> forall i :: 0 <= i < |invs| ==> invs[i] == Format(data.value[i])
  {
    match data
    case None => []
    case Some(rows) => seq(|rows|, i requires 0 <= i < |rows| => Format(rows[i]))
  }

  /** `totalInvested`: the amounts added up. */
  function TotalInvested(invs: seq<Investment>): real
  {
    if invs == [] then 0.0 else TotalInvested(invs[..|invs| - 1]) + invs[|invs| - 1].amount
  }

  /** The current value of one holding: its share of the company's current valuation, unrounded. */
  function EquityValue(inv: Investment): real
  {
    inv.currentValuation * (inv.percentage / 100.0)
  }

  /** `totalCurrentValue`: the holdings' current values added up, unrounded. */
  function TotalCurrentValue(invs: seq<Investment>): real
  {
    if invs == [] then 0.0 else TotalCurrentValue(invs[..|invs| - 1]) + EquityValue(invs[|invs| - 1])
  }

  /** Both totals distribute over concatenation. */
  lemma {:induction false} TotalsAppend(a: seq<Investment>, b: seq<Investment>)
    ensures TotalInvested(a + b) == TotalInvested(a) + TotalInvested(b)
    ensures TotalCurrentValue(a + b) == TotalCurrentValue(a) + TotalCurrentValue(b)
    decreases |b|
  {
    if b == [] {
      assert a + b == a;
    } else {
      assert (a + b)[..|a + b| - 1] == a + b[..|b| - 1];
      TotalsAppend(a, b[..|b| - 1]);
    }
  }

  /** `overallPerformance`: the portfolio's gain in whole percent, 0 unless something was invested. */
  function OverallPerformance(invs: seq<Investment>): (p: int)
    ensures TotalInvested(invs) <= 0.0 ==> p == 0
    ensures TotalInvested(invs) > 0.0 ==>
              var ti := TotalInvested(invs);
              p as real - 0.5 <= (TotalCurrentValue(invs) - ti) / ti * 100.0 < p as real + 0.5
  {
    var ti := TotalInvested(invs);
    if ti > 0.0 then Round((TotalCurrentValue(invs) - ti) / ti * 100.0) else 0
  }

  /** The overall figure is non-negative once the holdings are worth what was put in, and positive only when they are worth more. */
  lemma OverallSign(invs: seq<Investment>)
    requires TotalInvested(invs) > 0.0
    ensures TotalCurrentValue(invs) >= TotalInvested(invs) ==> OverallPerformance(invs) >= 0
    ensures OverallPerformance(invs) > 0 ==> TotalCurrentValue(invs) > TotalInvested(invs)
  {
    var ti, tv := TotalInvested(invs), TotalCurrentValue(invs);
    var x := (tv - ti) / ti * 100.0;
    assert tv >= ti ==> x >= 0.0;
    assert tv <= ti ==> x <= 0.0;
  }

  /** A row's "current value" line: the holding's value rounded to whole dollars. */
  function RowCurrentValue(inv: Investment): (v: int)
    ensures v as real - 0.5 <= EquityValue(inv) < v as real + 0.5
  {
    Round(EquityValue(inv))
  }

  /** The industries of the investments, in order. */
  function Industries(invs: seq<Investment>): (inds: seq<string>)
    ensures |inds| == |invs|
    ensures forall i :: 0 <= i < |invs| ==> inds[i] == invs[i].industry
  {
    seq(|invs|, i requires 0 <= i < |invs| => invs[i].industry)
  }

  /** `new Set(investments.map(inv => inv.company.industry)).size`: at most one industry per investment, and at least one when there is any. */
  function IndustryCount(invs: seq<Investment>): (n: nat)
    ensures n <= |invs|
    ensures |invs| > 0 ==> n >= 1
    ensures n == |set i | 0 <= i < |invs| :: invs[i].industry|
  {
    var inds := Industries(invs);
    var distinct := set x | x in inds;
    DistinctCountBounded(inds);
    assert distinct == (set i | 0 <= i < |invs| :: invs[i].industry);
    if |invs| > 0 then
      var first := invs[0].industry;
      assert first in distinct;
      assert distinct == (distinct - {first}) + {first};
      |distinct|
    else
      |distinct|
  }

  /** The overall figure's prefix and colour: "+" and green exactly when it is not negative. */
  function OverallSignText(p: int): (s: string)
    ensures s == "+" <==> p >= 0
    ensures s == "" <==> p < 0
  {
    if p >= 0 then "+" else ""
  }

  function OverallColor(p: int): (c: string)
    ensures c == "text-green-600" <==> p >= 0
    ensures c == "text-red-600" <==> p < 0
  {
    if p >= 0 then "text-green-600" else "text-red-600"
  }

  /** A row's badge: green above 0, red below, grey at 0; "+" only above 0. */
  function RowBadgeColor(p: int): (c: string)
    ensures c == "bg-green-100 text-green-800" <==> p > 0
    ensures c == "bg-red-100 text-red-800" <==> p < 0
    ensures c == "bg-gray-100 text-gray-800" <==> p == 0
  {
    if p > 0 then "bg-green-100 text-green-800"
    else if p < 0 then "bg-red-100 text-red-800"
    else "bg-gray-100 text-gray-800"
  }

  function RowSignText(p: int): (s: string)
    ensures s == "+" <==> p > 0
    ensures s == "" <==> p <= 0
  {
    if p > 0 then "+" else ""
  }

  /** A zero figure reads "+0%" overall but "0%" in a row. */
  lemma ZeroSignsDiffer()
    ensures OverallSignText(0) == "+" && RowSignText(0) == ""
  {
  }

  /** The table is shown when there is an investment, "No investments yet" otherwise. */
  predicate ShowsEmptyState(invs: seq<Investment>)
  {
    |invs| == 0
  }

  /** The demo portfolio: four holdings, their stored performance figures and the totals. */
  function DemoInvestments(): seq<Investment>
  {
    [Investment("1", "101", "CloudTech Solutions", "SaaS", 250000.0, 2.5, "SAFE", "active", 10000000.0, 15000000.0, 50, 5),
     Investment("2", "102", "EcoGen Power", "CleanTech", 500000.0, 1.8, "Equity", "active", 28000000.0, 35000000.0, 25, 8),
     Investment("3", "103", "MediSync", "HealthTech", 100000.0, 4.2, "Convertible Note", "active", 2400000.0, 3200000.0, 33, 4),
     Investment("4", "104", "DataViz AI", "AI/ML", 50000.0, 5.0, "SAFE", "active", 1000000.0, 1250000.0, 25, 3)]
  }

  /** The demo's stored figures are the ones the formula gives for its valuations. */
  lemma DemoPerformancesAgree()
    ensures forall i :: 0 <= i < |DemoInvestments()| ==>
              DemoInvestments()[i].performance == Performance(DemoInvestments()[i].valuation, DemoInvestments()[i].currentValuation)
  {
    RoundOfInt(50);
    RoundOfInt(25);
  }

  /** The demo portfolio's summary: 900,000 invested, 1,201,900 now, +34% overall. */
  lemma DemoSummary()
    ensures TotalInvested(DemoInvestments()) == 900000.0
    ensures TotalCurrentValue(DemoInvestments()) == 1201900.0
    ensures OverallPerformance(DemoInvestments()) == 34
  {
    var d := DemoInvestments();
    assert d[..3][..2][..1][..0] == [];
    assert d[..3][..2][..1] == d[..1];
    assert d[..3][..2] == d[..2];
    assert TotalInvested(d[..1]) == 250000.0;
    assert TotalInvested(d[..2]) == 750000.0;
    assert TotalInvested(d[..3]) == 850000.0;
    assert TotalCurrentValue(d[..1]) == 375000.0;
    assert TotalCurrentValue(d[..2]) == 1005000.0;
    assert TotalCurrentValue(d[..3]) == 1139400.0;
  }
}
