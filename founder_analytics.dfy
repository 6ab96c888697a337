/**
 * app/dashboard/founder/analytics/page.tsx: the analytics a founder sees,
 * built from three lists (profile views by day, document views by day and
 * investor engagement), and the four key figures computed from them.
 *
 * The metrics shape and the sums and average over it are shared with the
 * investor's analytics page, which imports them from here.
 */
module FounderAnalytics {
  import opened Common

  datatype ViewPoint = ViewPoint(date: string, count: int)

  datatype Engagement = Engagement(name: string, score: int, actions: int)

  datatype Metrics = Metrics(investorViews: seq<ViewPoint>, documentViews: seq<ViewPoint>, investorEngagement: seq<Engagement>)

  const NoMetrics: Metrics := Metrics([], [], [])

  /** `views.reduce((sum, item) => sum + item.count, 0)` */
  function ViewSum(vs: seq<ViewPoint>): int
  {
    if vs == [] then 0 else ViewSum(vs[..|vs| - 1]) + vs[|vs| - 1].count
  }

  lemma {:induction false} ViewSumAppend(a: seq<ViewPoint>, b: seq<ViewPoint>)
    ensures ViewSum(a + b) == ViewSum(a) + ViewSum(b)
    decreases |b|
  {
    if b == [] {
      assert a + b == a;
    } else {
      assert (a + b)[..|a + b| - 1] == a + b[..|b| - 1];
      ViewSumAppend(a, b[..|b| - 1]);
    }
  }

  /** With no negative counts, the total is at least any one day's count. */
  lemma {:induction false} ViewSumBounds(vs: seq<ViewPoint>, i: nat)
    requires i < |vs|
    requires forall j :: 0 <= j < |vs| ==> vs[j].count >= 0
    ensures 0 <= vs[i].count <= ViewSum(vs)
  {
    var init := vs[..|vs| - 1];
    assert forall j :: 0 <= j < |init| ==> init[j] == vs[j];
    ViewSumNonNegative(init);
    if i < |vs| - 1 {
      ViewSumBounds(init, i);
    }
  }

  lemma {:induction false} ViewSumNonNegative(vs: seq<ViewPoint>)
    requires forall j :: 0 <= j < |vs| ==> vs[j].count >= 0
    ensures ViewSum(vs) >= 0
  {
    if vs != [] {
      var init := vs[..|vs| - 1];
      assert forall j :: 0 <= j < |init| ==> init[j] == vs[j];
      ViewSumNonNegative(init);
    }
  }

  /** The engagement scores, in order. */
  function Scores(es: seq<Engagement>): (s: seq<int>)
    ensures |s| == |es|
    ensures forall i :: 0 <= i < |es| ==> s[i] == es[i].score
  {
    seq(|es|, i requires 0 <= i < |es| => es[i].score)
  }

  /** `engagement.reduce((sum, item) => sum + item.actions, 0)` */
  function ActionSum(es: seq<Engagement>): int
  {
    if es == [] then 0 else ActionSum(es[..|es| - 1]) + es[|es| - 1].actions
  }

  /**
   * The average score: the rounded mean of the scores, and 0 for an empty
   * list, so there is never a division by zero.
   */
  function AverageScore(es: seq<Engagement>): (avg: int)
    ensures |es| == 0 ==> avg == 0
    ensures |es| > 0 ==>
              avg as real - 0.5 <= SumInt(Scores(es)) as real / |es| as real < avg as real + 0.5
  {
    if |es| > 0 then Round(SumInt(Scores(es)) as real / |es| as real) else 0
  }

  /** When every score lies in [lo, hi], so does the average; with percentages it is a percentage. */
  lemma AverageScoreInRange(es: seq<Engagement>, lo: int, hi: int)
    requires |es| > 0
    requires forall i :: 0 <= i < |es| ==> lo <= es[i].score <= hi
    ensures lo <= AverageScore(es) <= hi
  {
    var s := Scores(es);
    SumIntBounds(s, lo, hi);
    MeanInRange(SumInt(s), |es|, lo, hi);
    var mean := SumInt(s) as real / |es| as real;
    RoundMonotone(lo as real, mean);
    RoundMonotone(mean, hi as real);
    RoundOfInt(lo);
    RoundOfInt(hi);
  }

  /** Equal scores average to that score. */
  lemma {:induction false} AverageOfEqualScores(es: seq<Engagement>, v: int)
    requires |es| > 0
    requires forall i :: 0 <= i < |es| ==> es[i].score == v
    ensures AverageScore(es) == v
  {
    AverageScoreInRange(es, v, v);
  }

  /** An engagement row as the founder's query returns it. */
  datatype EngagementRow = EngagementRow(fullName: string, score: int, actionCount: int)

  /** The mapping of the rows: name from the user's full name, score copied, actions from the action count; order kept. */
  function EngagementOf(data: Option<seq<EngagementRow>>): (es: seq<Engagement>)
    ensures data.None? ==> es == []
    ensures data.Some? ==> |es| == |data.value|
    ensures data.Some? ==> forall i :: 0 <= i < |es| ==>
              es[i] == Engagement(data.value[i].fullName, data.value[i].score, data.value[i].actionCount)
  {
    match data
    case None => []
    case Some(rows) => seq(|rows|, i requires 0 <= i < |rows| => Engagement(rows[i].fullName, rows[i].score, rows[i].actionCount))
  }

  /**
   * The live page's metrics: empty lists when the founder has no company,
   * otherwise the fetched lists (an absent one read as empty).
   */
  function FounderMetrics(companyId: Option<string>, views: Option<seq<ViewPoint>>, docViews: Option<seq<ViewPoint>>,
                          engagement: Option<seq<EngagementRow>>): (m: Metrics)
    ensures companyId.None? ==> m == NoMetrics
    ensures companyId.Some? ==> m.investorViews == (if views.Some? then views.value else [])
    ensures companyId.Some? ==> m.documentViews == (if docViews.Some? then docViews.value else [])
    ensures companyId.Some? ==> m.investorEngagement == EngagementOf(engagement)
  {
    match companyId
    case None => NoMetrics
    case Some(_) =>
      Metrics(if views.Some? then views.value else [], if docViews.Some? then docViews.value else [], EngagementOf(engagement))
  }

  /** The four key figures. */
  datatype KeyFigures = KeyFigures(profileViews: int, documentViews: int, averageScore: int, activeInvestors: nat)

  function FounderFigures(m: Metrics): (f: KeyFigures)
    ensures f.profileViews == ViewSum(m.investorViews)
    ensures f.documentViews == ViewSum(m.documentViews)
    ensures f.averageScore == AverageScore(m.investorEngagement)
    ensures f.activeInvestors == |m.investorEngagement|
  {
    KeyFigures(ViewSum(m.investorViews), ViewSum(m.documentViews), AverageScore(m.investorEngagement), |m.investorEngagement|)
  }

  /** Without a company, every figure is 0. */
  lemma NoCompanyFigures(views: Option<seq<ViewPoint>>, docViews: Option<seq<ViewPoint>>, engagement: Option<seq<EngagementRow>>)
    ensures FounderFigures(FounderMetrics(None, views, docViews, engagement)) == KeyFigures(0, 0, 0, 0)
  {
  }

  function DemoMetrics(): Metrics
  {
    Metrics(
      [ViewPoint("2025-05-05", 12), ViewPoint("2025-05-06", 18), ViewPoint("2025-05-07", 15), ViewPoint("2025-05-08", 22),
       ViewPoint("2025-05-09", 30), ViewPoint("2025-05-10", 25), ViewPoint("2025-05-11", 28)],
      [ViewPoint("2025-05-05", 8), ViewPoint("2025-05-06", 12), ViewPoint("2025-05-07", 9), ViewPoint("2025-05-08", 15),
       ViewPoint("2025-05-09", 18), ViewPoint("2025-05-10", 14), ViewPoint("2025-05-11", 16)],
      [Engagement("John Doe", 92, 27), Engagement("Jane Smith", 85, 19), Engagement("Robert Johnson", 78, 14),
       Engagement("Emily Wilson", 65, 8), Engagement("Michael Brown", 89, 22)])
  }

  /** The demo page: 150 profile views, 92 document views, an 82% average over 5 investors. */
  lemma DemoFigures()
    ensures FounderFigures(DemoMetrics()) == KeyFigures(150, 92, 82, 5)
  {
    var m := DemoMetrics();
    var v := m.investorViews;
    assert v[..1][..0] == [];
    assert ViewSum(v[..1]) == 12;
    assert v[..2][..1] == v[..1];
    assert ViewSum(v[..2]) == 30;
    assert v[..3][..2] == v[..2];
    assert ViewSum(v[..3]) == 45;
    assert v[..4][..3] == v[..3];
    assert ViewSum(v[..4]) == 67;
    assert v[..5][..4] == v[..4];
    assert ViewSum(v[..5]) == 97;
    assert v[..6][..5] == v[..5];
    assert ViewSum(v[..6]) == 122;
    assert v[..7][..6] == v[..6];
    assert v[..7] == v;
    var d := m.documentViews;
    assert d[..1][..0] == [];
    assert ViewSum(d[..1]) == 8;
    assert d[..2][..1] == d[..1];
    assert ViewSum(d[..2]) == 20;
    assert d[..3][..2] == d[..2];
    assert ViewSum(d[..3]) == 29;
    assert d[..4][..3] == d[..3];
    assert ViewSum(d[..4]) == 44;
    assert d[..5][..4] == d[..4];
    assert ViewSum(d[..5]) == 62;
    assert d[..6][..5] == d[..5];
    assert ViewSum(d[..6]) == 76;
    assert d[..7][..6] == d[..6];
    assert d[..7] == d;
    var s := Scores(m.investorEngagement);
    assert s == [92, 85, 78, 65, 89];
    assert s[..1][..0] == [];
    assert SumInt(s[..1]) == 92;
    assert s[..2][..1] == s[..1];
    assert SumInt(s[..2]) == 177;
    assert s[..3][..2] == s[..2];
    assert SumInt(s[..3]) == 255;
    assert s[..4][..3] == s[..3];
    assert SumInt(s[..4]) == 320;
    assert s[..5][..4] == s[..4];
    assert s[..5] == s;
    assert SumInt(s) == 409;
  }
}
