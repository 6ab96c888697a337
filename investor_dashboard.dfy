/**
 * app/dashboard/investor/page.tsx: the investor's home page, with its four
 * figures (total invested, active investments, SPV memberships, portfolio
 * companies) and the list of recent investments.
 *
 * The investor's investments are given newest first, as the query orders
 * them; the page fetches at most five of them for the list, and the total
 * from all of them.
 */
module InvestorDashboard {
  import opened Common

  datatype InvestmentRow = InvestmentRow(
    id: string,
    amount: real,
    instrument: string,
    status: string,
    companyName: Option<string>,
    stage: Option<string>)

  /** `.limit(5)`: the number of recent investments the page fetches. */
  const RecentLimit: nat := 5

  /** The first `n` rows, or all of them when there are fewer. */
  function Take(rows: seq<InvestmentRow>, n: nat): (r: seq<InvestmentRow>)
    ensures |r| == if |rows| < n then |rows| else n
    ensures r == rows[..|r|]
  {
    if |rows| < n then rows else rows[..n]
  }

  /** The recent investments the page lists: the newest five. */
  function Recent(all: seq<InvestmentRow>): (r: seq<InvestmentRow>)
    ensures |r| <= RecentLimit && |r| <= |all|
    ensures r == all[..|r|]
    ensures |all| <= RecentLimit ==> r == all
  {
    Take(all, RecentLimit)
  }

  /** The amounts of the rows with status "committed", added up. */
  function CommittedTotal(rows: seq<InvestmentRow>): real
  {
    if rows == [] then 0.0
    else CommittedTotal(rows[..|rows| - 1]) + (if rows[|rows| - 1].status == "committed" then rows[|rows| - 1].amount else 0.0)
  }

  /** The rows with status "committed", counted. */
  function CommittedCount(rows: seq<InvestmentRow>): (n: nat)
    ensures n <= |rows|
    ensures n == 0 <==> forall i :: 0 <= i < |rows| ==> rows[i].status != "committed"
    ensures n == |rows| <==> forall i :: 0 <= i < |rows| ==> rows[i].status == "committed"
  {
    if rows == [] then 0
    else CommittedCount(rows[..|rows| - 1]) + (if rows[|rows| - 1].status == "committed" then 1 else 0)
  }

  /** The count adds up over the parts of a list: each committed row counts once, wherever it is. */
  lemma {:induction false} CommittedCountAppend(a: seq<InvestmentRow>, b: seq<InvestmentRow>)
    ensures CommittedCount(a + b) == CommittedCount(a) + CommittedCount(b)
    decreases |b|
  {
    if b == [] {
      assert a + b == a;
    } else {
      assert (a + b)[..|a + b| - 1] == a + b[..|b| - 1];
      CommittedCountAppend(a, b[..|b| - 1]);
    }
  }

  /** The four figures at the top of the page. */
  datatype Figures = Figures(totalInvested: real, activeInvestments: nat, totalSpvs: nat, portfolioCompanies: nat)

  /**
   * The figures of the live page: the total over ALL committed investments,
   * but the active count and the "Portfolio Companies" count over the five
   * recent ones only.
   */
  function LiveFigures(all: seq<InvestmentRow>, memberships: Option<seq<string>>): (f: Figures)
    ensures f.totalInvested == CommittedTotal(all)
    ensures f.activeInvestments == CommittedCount(Recent(all))
    ensures f.activeInvestments <= f.portfolioCompanies <= RecentLimit
    ensures f.portfolioCompanies == |Recent(all)|
    ensures f.totalSpvs == LengthOr0(memberships)
  {
    var recent := Recent(all);
    Figures(CommittedTotal(all), CommittedCount(recent), LengthOr0(memberships), |recent|)
  }

  lemma {:induction false} CommittedTotalAppend(a: seq<InvestmentRow>, b: seq<InvestmentRow>)
    ensures CommittedTotal(a + b) == CommittedTotal(a) + CommittedTotal(b)
    decreases |b|
  {
    if b == [] {
      assert a + b == a;
    } else {
      assert (a + b)[..|a + b| - 1] == a + b[..|b| - 1];
      CommittedTotalAppend(a, b[..|b| - 1]);
    }
  }

  lemma {:induction false} CommittedTotalNonNegative(rows: seq<InvestmentRow>)
    requires forall i :: 0 <= i < |rows| ==> rows[i].amount >= 0.0
    ensures CommittedTotal(rows) >= 0.0
  {
    if rows != [] {
      var init := rows[..|rows| - 1];
      assert forall i :: 0 <= i < |init| ==> init[i] == rows[i];
      CommittedTotalNonNegative(init);
    }
  }

  /**
   * "Total Invested" covers at least what the recent list shows as committed:
   * the older investments can only add to it when no amount is negative.
   */
  lemma RecentCommittedWithinTotal(all: seq<InvestmentRow>)
    requires forall i :: 0 <= i < |all| ==> all[i].amount >= 0.0
    ensures CommittedTotal(Recent(all)) <= CommittedTotal(all)
  {
    var recent := Recent(all);
    var older := all[|recent|..];
    assert all == recent + older;
    CommittedTotalAppend(recent, older);
    assert forall i :: 0 <= i < |older| ==> older[i] == all[|recent| + i];
    CommittedTotalNonNegative(older);
  }

  /** An investor with more than five investments still sees "Portfolio Companies: 5". */
  lemma PortfolioCountCapped(all: seq<InvestmentRow>)
    requires |all| > RecentLimit
    ensures LiveFigures(all, None).portfolioCompanies == RecentLimit
  {
  }

  /** The demo: two committed investments of 25,000 and 50,000, one SPV membership. */
  function DemoInvestments(): seq<InvestmentRow>
  {
    [InvestmentRow("1", 25000.0, "SAFE", "committed", Some("Demo Startup A"), Some("seed")),
     InvestmentRow("2", 50000.0, "Equity", "committed", Some("Demo Startup B"), Some("series-a"))]
  }

  /** The demo's fixed total of 75,000 is the one the live formula gives for its rows. */
  lemma DemoTotalAgrees()
    ensures CommittedTotal(DemoInvestments()) == 75000.0
    ensures LiveFigures(DemoInvestments(), Some(["1"])) == Figures(75000.0, 2, 1, 2)
  {
    var d := DemoInvestments();
    assert d[..1][..0] == [];
    assert CommittedTotal(d[..1]) == 25000.0;
    assert CommittedCount(d[..1]) == 1;
  }

  /** A row's status badge colour: green for committed, yellow for in discussion, grey otherwise. */
  function StatusColor(status: string): (c: string)
    ensures c == "bg-green-100 text-green-800" <==> status == "committed"
    ensures c == "bg-yellow-100 text-yellow-800" <==> status == "in_discussion"
    ensures c == "bg-gray-100 text-gray-800" <==> status != "committed" && status != "in_discussion"
  {
    if status == "committed" then "bg-green-100 text-green-800"
    else if status == "in_discussion" then "bg-yellow-100 text-yellow-800"
    else "bg-gray-100 text-gray-800"
  }

  /** A row's status text: `status.replace('_', ' ')`, the first underscore only. */
  function StatusLabel(status: string): (text: string)
    ensures |text| == |status|
    ensures '_' !in status ==> text == status
    ensures '_' in status ==> exists k :: 0 <= k < |status| && status[k] == '_' && '_' !in status[..k] && text == status[..k] + " " + status[k + 1..]
  {
    ReplaceFirst(status, '_', ' ')
  }

  /** `investment.companies?.name || 'Unknown Company'` */
  function CompanyName(row: InvestmentRow): (name: string)
    ensures name != ""
    ensures row.companyName.Some? && row.companyName.value != "" ==> name == row.companyName.value
    ensures row.companyName.None? || row.companyName.value == "" ==> name == "Unknown Company"
  {
    match row.companyName
    case Some(n) => if n != "" then n else "Unknown Company"
    case None => "Unknown Company"
  }

  /** The recent list is shown when there is a recent investment, "No investments yet" otherwise. */
  predicate ShowsEmptyState(recent: Option<seq<InvestmentRow>>)
  {
    LengthOr0(recent) == 0
  }
}
