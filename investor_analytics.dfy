/**
 * app/dashboard/investor/analytics/page.tsx: the analytics an investor sees
 * about their portfolio, the four key figures and the health colour of each
 * portfolio company.
 */
module InvestorAnalytics {
  import opened Common
  import FounderAnalytics

  type ViewPoint = FounderAnalytics.ViewPoint
  type Engagement = FounderAnalytics.Engagement
  type Metrics = FounderAnalytics.Metrics

  /** A company row as the engagement query returns it. */
  datatype CompanyRow = CompanyRow(name: string, engagementScore: int, interactionCount: int)

  /** The mapping of the rows: name copied, score from the engagement score, actions from the interaction count; order kept. */
  function EngagementOf(data: Option<seq<CompanyRow>>): (es: seq<Engagement>)
    ensures data.None? ==> es == []
    ensures data.Some? ==> |es| == |data.value|
    ensures data.Some? ==> forall i :: 0 <= i < |es| ==>
              es[i] == FounderAnalytics.Engagement(data.value[i].name, data.value[i].engagementScore, data.value[i].interactionCount)
  {
    match data
    case None => []
    case Some(rows) =>
      seq(|rows|, i requires 0 <= i < |rows| => FounderAnalytics.Engagement(rows[i].name, rows[i].engagementScore, rows[i].interactionCount))
  }

  /**
   * The live page's data: the company ids of the investor's investments
   * decide whether the three analytics queries are made at all; without an
   * investment they are not, and every list is empty.
   */
  datatype PageData = PageData(queried: bool, metrics: Metrics)

  function InvestorMetrics(investmentCompanyIds: Option<seq<string>>, views: Option<seq<ViewPoint>>,
                           docViews: Option<seq<ViewPoint>>, engagement: Option<seq<CompanyRow>>): (d: PageData)
    ensures d.queried <==> LengthOr0(investmentCompanyIds) > 0
    ensures !d.queried ==> d.metrics == FounderAnalytics.NoMetrics
    ensures d.queried ==> d.metrics.investorViews == (if views.Some? then views.value else [])
    ensures d.queried ==> d.metrics.documentViews == (if docViews.Some? then docViews.value else [])
    ensures d.queried ==> d.metrics.investorEngagement == EngagementOf(engagement)
  {
    if LengthOr0(investmentCompanyIds) > 0 then
      PageData(true, FounderAnalytics.Metrics(if views.Some? then views.value else [],
                                              if docViews.Some? then docViews.value else [],
                                              EngagementOf(engagement)))
    else PageData(false, FounderAnalytics.NoMetrics)
  }

  /** The four key figures of the investor's page. */
  datatype KeyFigures = KeyFigures(portfolioCompanies: nat, documentReviews: int, averageScore: int, totalInteractions: int)

  function InvestorFigures(m: Metrics): (f: KeyFigures)
    ensures f.portfolioCompanies == |m.investorEngagement|
    ensures f.documentReviews == FounderAnalytics.ViewSum(m.documentViews)
    ensures f.averageScore == FounderAnalytics.AverageScore(m.investorEngagement)
    ensures f.totalInteractions == FounderAnalytics.ActionSum(m.investorEngagement)
  {
    KeyFigures(|m.investorEngagement|, FounderAnalytics.ViewSum(m.documentViews),
               FounderAnalytics.AverageScore(m.investorEngagement), FounderAnalytics.ActionSum(m.investorEngagement))
  }

  /** An investor without investments sees four zeros, whatever the queries would have returned. */
  lemma EmptyPortfolioFigures(ids: Option<seq<string>>, views: Option<seq<ViewPoint>>,
                              docViews: Option<seq<ViewPoint>>, engagement: Option<seq<CompanyRow>>)
    requires LengthOr0(ids) == 0
    ensures InvestorFigures(InvestorMetrics(ids, views, docViews, engagement).metrics) == KeyFigures(0, 0, 0, 0)
  {
  }

  /** The health dot: green from 80, yellow from 60, red below. */
  function HealthColor(score: int): (c: string)
    ensures c == "bg-green-500" <==> score >= 80
    ensures c == "bg-yellow-500" <==> 60 <= score < 80
    ensures c == "bg-red-500" <==> score < 60
  {
    if score >= 80 then "bg-green-500" else if score >= 60 then "bg-yellow-500" else "bg-red-500"
  }

  /** The colours ranked from worst (red, 0) to best (green, 2). */
  function HealthRank(c: string): nat
  {
    if c == "bg-green-500" then 2 else if c == "bg-yellow-500" then 1 else 0
  }

  /** A higher score never gets a worse colour. */
  lemma HealthColorMonotone(s1: int, s2: int)
    requires s1 <= s2
    ensures HealthRank(HealthColor(s1)) <= HealthRank(HealthColor(s2))
  {
  }

  function DemoMetrics(): Metrics
  {
    FounderAnalytics.Metrics(
      [FounderAnalytics.ViewPoint("2025-05-05", 3), FounderAnalytics.ViewPoint("2025-05-06", 5),
       FounderAnalytics.ViewPoint("2025-05-07", 4), FounderAnalytics.ViewPoint("2025-05-08", 8),
       FounderAnalytics.ViewPoint("2025-05-09", 7), FounderAnalytics.ViewPoint("2025-05-10", 6),
       FounderAnalytics.ViewPoint("2025-05-11", 9)],
      [FounderAnalytics.ViewPoint("2025-05-05", 2), FounderAnalytics.ViewPoint("2025-05-06", 4),
       FounderAnalytics.ViewPoint("2025-05-07", 3), FounderAnalytics.ViewPoint("2025-05-08", 6),
       FounderAnalytics.ViewPoint("2025-05-09", 5), FounderAnalytics.ViewPoint("2025-05-10", 4),
       FounderAnalytics.ViewPoint("2025-05-11", 7)],
      [FounderAnalytics.Engagement("CloudTech Solutions", 92, 27), FounderAnalytics.Engagement("EcoGen Power", 85, 19),
       FounderAnalytics.Engagement("MediSync", 78, 14), FounderAnalytics.Engagement("DataViz AI", 65, 8),
       FounderAnalytics.Engagement("AgriTech Innovations", 89, 22)])
  }

  /** The demo page: 5 companies, 31 document reviews, an 82% average and 90 interactions; three green dots, two yellow. */
  lemma DemoFigures()
    ensures InvestorFigures(DemoMetrics()) == KeyFigures(5, 31, 82, 90)
    ensures forall i :: 0 <= i < 5 ==>
              HealthColor(DemoMetrics().investorEngagement[i].score) ==
              ["bg-green-500", "bg-green-500", "bg-yellow-500", "bg-yellow-500", "bg-green-500"][i]
  {
    var m := DemoMetrics();
    var d := m.documentViews;
    assert d[..1][..0] == [];
    assert FounderAnalytics.ViewSum(d[..1]) == 2;
    assert d[..2][..1] == d[..1];
    assert FounderAnalytics.ViewSum(d[..2]) == 6;
    assert d[..3][..2] == d[..2];
    assert FounderAnalytics.ViewSum(d[..3]) == 9;
    assert d[..4][..3] == d[..3];
    assert FounderAnalytics.ViewSum(d[..4]) == 15;
    assert d[..5][..4] == d[..4];
    assert FounderAnalytics.ViewSum(d[..5]) == 20;
    assert d[..6][..5] == d[..5];
    assert FounderAnalytics.ViewSum(d[..6]) == 24;
    assert d[..7][..6] == d[..6];
    assert d[..7] == d;
    var e := m.investorEngagement;
    assert e[..1][..0] == [];
    assert FounderAnalytics.ActionSum(e[..1]) == 27;
    assert e[..2][..1] == e[..1];
    assert FounderAnalytics.ActionSum(e[..2]) == 46;
    assert e[..3][..2] == e[..2];
    assert FounderAnalytics.ActionSum(e[..3]) == 60;
    assert e[..4][..3] == e[..3];
    assert FounderAnalytics.ActionSum(e[..4]) == 68;
    assert e[..5][..4] == e[..4];
    assert e[..5] == e;
    var s := FounderAnalytics.Scores(e);
    assert s == [92, 85, 78, 65, 89];
    assert s[..1][..0] == [];
    assert SumInt(s[..1]) == 92;
    assert s[..2][..1] == s[..1];
    assert SumInt(s[..2]) == 177;
    assert s[..3][..2] == s[..2];
    assert SumInt(s[..3]) == 255;
    assert s[..4][..3] == s[..3];
    assert SumInt(s[..4]) == 320;
    assert s[..5][..4] == s[..4];
    assert s[..5] == s;
    assert SumInt(s) == 409;
  }
}
