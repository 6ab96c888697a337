/**
 * app/dashboard/founder/cap-table/page.tsx: the total of outstanding
 * shares, each class's percentage of it, and the summary counts.
 */
module FounderCapTable {
  import opened Common
  import CapTableChart

  type ShareClass = CapTableChart.ShareClass

  /** `shareClasses?.reduce((sum, sc) => sum + Number(sc.outstanding_shares || 0), 0) || 0` */
  function TotalShares(shareClasses: Option<seq<ShareClass>>): (total: int)
    ensures shareClasses.None? ==> total == 0
    ensures shareClasses.Some? ==> total == CapTableChart.OutstandingTotal(shareClasses.value)
  {
    match shareClasses
    case None => 0
    case Some(scs) => CapTableChart.OutstandingTotal(scs)
  }

  /** The "% of Total" cell: the class's share of the total, or 0 when the total is not positive. */
  function PercentOfTotal(sc: ShareClass, total: int): (pct: real)
    ensures total <= 0 ==> pct == 0.0
    ensures total > 0 ==> pct * total as real == CapTableChart.Outstanding(sc) as real * 100.0
  {
    if total > 0 then CapTableChart.Outstanding(sc) as real / total as real * 100.0 else 0.0
  }

  /** The percentages of a list of classes against one total, added up. */
  function PercentSum(scs: seq<ShareClass>, total: int): real
  {
    if scs == [] then 0.0 else PercentSum(scs[..|scs| - 1], total) + PercentOfTotal(scs[|scs| - 1], total)
  }

  lemma {:induction false} PercentSumScaled(scs: seq<ShareClass>, total: int)
    requires total > 0
    ensures PercentSum(scs, total) * total as real == CapTableChart.OutstandingTotal(scs) as real * 100.0
  {
    if scs != [] {
      var init := scs[..|scs| - 1];
      PercentSumScaled(init, total);
      var a, b := PercentSum(init, total), PercentOfTotal(scs[|scs| - 1], total);
      assert (a + b) * total as real == a * total as real + b * total as real;
    }
  }

  /** With a positive total the percentages of all classes add up to exactly 100. */
  lemma PercentagesSumTo100(scs: seq<ShareClass>)
    requires TotalShares(Some(scs)) > 0
    ensures PercentSum(scs, TotalShares(Some(scs))) == 100.0
  {
    var t := TotalShares(Some(scs));
    PercentSumScaled(scs, t);
    var p := PercentSum(scs, t);
    var tr := t as real;
    assert CapTableChart.OutstandingTotal(scs) == t;
    assert p * tr == CapTableChart.OutstandingTotal(scs) as real * 100.0;
    assert p * tr == tr * 100.0;
    assert (p - 100.0) * tr == 0.0;
  }

  lemma {:induction false} TermBounded(scs: seq<ShareClass>, i: nat)
    requires i < |scs|
    requires forall j :: 0 <= j < |scs| ==> CapTableChart.Outstanding(scs[j]) >= 0
    ensures 0 <= CapTableChart.Outstanding(scs[i]) <= CapTableChart.OutstandingTotal(scs)
  {
    var init := scs[..|scs| - 1];
    NonNegativeTotal(init);
    if i < |scs| - 1 {
      TermBounded(init, i);
    }
  }

  lemma {:induction false} NonNegativeTotal(scs: seq<ShareClass>)
    requires forall j :: 0 <= j < |scs| ==> CapTableChart.Outstanding(scs[j]) >= 0
    ensures CapTableChart.OutstandingTotal(scs) >= 0
  {
    if scs != [] {
      NonNegativeTotal(scs[..|scs| - 1]);
    }
  }

  /** With no negative share counts every class's percentage lies between 0 and 100. */
  lemma PercentInRange(scs: seq<ShareClass>, i: nat)
    requires i < |scs|
    requires forall j :: 0 <= j < |scs| ==> CapTableChart.Outstanding(scs[j]) >= 0
    ensures 0.0 <= PercentOfTotal(scs[i], TotalShares(Some(scs))) <= 100.0
  {
    var t := TotalShares(Some(scs));
    TermBounded(scs, i);
    if t > 0 {
      var s := CapTableChart.Outstanding(scs[i]) as real;
      var p := PercentOfTotal(scs[i], t);
      assert p * t as real == s * 100.0;
      MulCancel(0.0, p, t as real);
      MulCancel(p, 100.0, t as real);
    }
  }

  /** The chart and the summary agree on the total when no class has a negative count. */
  lemma ChartTotalMatchesSummary(scs: seq<ShareClass>)
    requires forall j :: 0 <= j < |scs| ==> CapTableChart.Outstanding(scs[j]) >= 0
    ensures CapTableChart.SliceTotal(CapTableChart.ChartData(scs)) == TotalShares(Some(scs))
  {
    CapTableChart.SliceTotalIsKeptTotal(scs);
    CapTableChart.KeptTotal(scs);
  }

  /** The chart panel is shown when there is at least one share class, the placeholder otherwise. */
  predicate ShowsChart(shareClasses: Option<seq<ShareClass>>)
  {
    LengthOr0(shareClasses) > 0
  }

  /** A number shown with `value || '0.00'`: null and 0 print as the text "0.00". */
  datatype Shown = ShownNumber(value: real) | ZeroText

  function OrZeroText(x: Option<real>): (s: Shown)
    ensures s == ZeroText <==> x.None? || x.value == 0.0
    ensures s.ShownNumber? ==> x == Some(s.value)
  {
    match x
    case None => ZeroText
    case Some(v) => if v == 0.0 then ZeroText else ShownNumber(v)
  }

  datatype Stakeholder = Stakeholder(
    id: string,
    name: string,
    stakeholderType: string,
    email: string,
    currentEquityPercent: Option<real>,
    securities: Option<seq<string>>)

  /** The summary's three counts: total shares, share classes and stakeholders. */
  datatype Summary = Summary(totalShares: int, shareClassCount: nat, stakeholderCount: nat)

  function SummaryOf(shareClasses: Option<seq<ShareClass>>, stakeholders: Option<seq<Stakeholder>>): (s: Summary)
    ensures s.totalShares == TotalShares(shareClasses)
    ensures shareClasses.None? ==> s.shareClassCount == 0
    ensures shareClasses.Some? ==> s.shareClassCount == |shareClasses.value|
    ensures stakeholders.None? ==> s.stakeholderCount == 0
    ensures stakeholders.Some? ==> s.stakeholderCount == |stakeholders.value|
  {
    Summary(TotalShares(shareClasses), LengthOr0(shareClasses), LengthOr0(stakeholders))
  }

  /** A stakeholder row: the email or "-", the equity or "0.00", and the number of securities. */
  datatype StakeholderRow = StakeholderRow(name: string, stakeholderType: string, email: string, equity: Shown, securities: nat)

  function StakeholderRowOf(s: Stakeholder): (r: StakeholderRow)
    ensures r.email == (if s.email == "" then "-" else s.email)
    ensures r.equity == OrZeroText(s.currentEquityPercent)
    ensures r.securities == LengthOr0(s.securities)
  {
    StakeholderRow(s.name, s.stakeholderType, if s.email == "" then "-" else s.email,
                   OrZeroText(s.currentEquityPercent), LengthOr0(s.securities))
  }
}
